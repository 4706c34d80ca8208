/** The bytes of fault reports, log header and log entries: common.h. */
module Records {

  type byte = x: int | 0 <= x < 256

  const HEADER_SIZE := 116
  const COUNT_OFFSET := 28
  const ENTRY_SIZE := 136

  // A four-byte int in memory, least significant byte first.
  function Int32(n: nat): (b: seq<byte>)
    requires n < 0x1_0000_0000
    ensures |b| == 4
  {
    [Low(n), Low(n / 256), Low(n / 65536), Low(n / 16777216)]
  }

  function Low(n: nat): byte { n % 256 }

  function FromInt32(b: seq<byte>): nat
    requires |b| == 4
  {
    (b[0] as int) + 256 * (b[1] as int) + 65536 * (b[2] as int) + 16777216 * (b[3] as int)
  }

  lemma Int32RoundTrip(n: nat)
    requires n < 0x1_0000_0000
    ensures FromInt32(Int32(n)) == n
  {
    var a, b := n / 256, n / 65536;
    assert b == a / 256 && n / 16777216 == b / 256;
  }

  function Zeros(n: nat): (z: seq<byte>)
    ensures |z| == n && forall i | 0 <= i < n :: z[i] == 0
  {
    seq(n, _ => 0)
  }

  // The bytes of a literal.
  function Ascii(s: string): (b: seq<byte>)
    ensures |b| == |s|
    ensures forall i | 0 <= i < |s| && s[i] < 128 as char :: b[i] == s[i] as int
  {
    seq(|s|, i requires 0 <= i < |s| => (s[i] as int) % 256)
  }

  // A C string: bytes without the terminator.
  ghost predicate IsText(s: seq<byte>) {
    forall i | 0 <= i < |s| :: s[i] != 0
  }

  // strncpy(field, s, size - 1) into a zeroed field.
  function Truncated(s: seq<byte>, size: nat): seq<byte>
    requires size > 0
  {
    if |s| < size then s else s[..size - 1]
  }

  function Field(s: seq<byte>, size: nat): (f: seq<byte>)
    requires size > 0
    ensures |f| == size
  {
    Truncated(s, size) + Zeros(size - |Truncated(s, size)|)
  }

  // What a reader of a field sees: the bytes up to its first zero.
  function Text(f: seq<byte>): (s: seq<byte>)
    ensures |s| <= |f| && s == f[..|s|] && IsText(s)
    ensures |s| < |f| ==> f[|s|] == 0
  {
    if f == [] || f[0] == 0 then [] else [f[0]] + Text(f[1..])
  }

  lemma {:induction false} TextOfPadded(s: seq<byte>, n: nat)
    requires IsText(s)
    ensures Text(s + Zeros(n)) == s
  {
    if s == [] {
    } else {
      assert (s + Zeros(n))[1..] == s[1..] + Zeros(n);
      TextOfPadded(s[1..], n);
    }
  }

  lemma TextOfField(s: seq<byte>, size: nat)
    requires size > 0 && IsText(s)
    ensures Text(Field(s, size)) == Truncated(s, size)
  {
    TextOfPadded(Truncated(s, size), size - |Truncated(s, size)|);
  }

  // fault_report_t. The two floats are kept as their four bytes, which the code only copies.
  datatype Report = Report(subsystem: seq<byte>, severity: seq<byte>, value: seq<byte>, threshold: seq<byte>,
                           description: seq<byte>, timestamp: seq<byte>)
  {
    // The sizes of the fields, and a terminator in each string.
    ghost predicate Valid() {
      && |subsystem| == 16 && |severity| == 12 && |value| == 4 && |threshold| == 4 && |description| == 64
          && |timestamp| == 32
      && |Text(subsystem)| < 16 && |Text(severity)| < 12 && |Text(description)| < 64 && |Text(timestamp)| < 32
    }
  }

  // The *_send_fault helpers of power.c, thermal.c and comms.c fill a zeroed report.
  function FilledReport(subsystem: seq<byte>, severity: seq<byte>, value: seq<byte>, threshold: seq<byte>,
                        description: seq<byte>, timestamp: seq<byte>): Report
  {
    Report(Field(subsystem, 16), Field(severity, 12), value, threshold, Field(description, 64), Field(timestamp, 32))
  }

  // strcpy() into a zeroed field of the same size.
  function Copied(f: seq<byte>): (r: seq<byte>)
    ensures |r| == |f|
  {
    Text(f) + Zeros(|f| - |Text(f)|)
  }

  lemma TextOfCopied(f: seq<byte>)
    ensures Text(Copied(f)) == Text(f)
  {
    TextOfPadded(Text(f), |f| - |Text(f)|);
  }

  // fdr_entry_t as fdr_write_entry() writes it.
  function Entry(id: nat, r: Report): (e: seq<byte>)
    requires id < 0x1_0000_0000 && r.Valid()
    ensures |e| == ENTRY_SIZE
  {
    Int32(id) + Copied(r.subsystem) + Copied(r.severity) + r.value + r.threshold + Copied(r.description)
        + Copied(r.timestamp)
  }

  datatype Decoded = Decoded(id: nat, subsystem: seq<byte>, severity: seq<byte>, value: seq<byte>, threshold: seq<byte>,
                             description: seq<byte>, timestamp: seq<byte>)

  function Decode(e: seq<byte>): Decoded
    requires |e| == ENTRY_SIZE
  {
    Decoded(FromInt32(e[..4]), Text(e[4..20]), Text(e[20..32]), e[32..36], e[36..40], Text(e[40..104]),
        Text(e[104..136]))
  }

  lemma EntryLayout(a: seq<byte>, b: seq<byte>, c: seq<byte>, d: seq<byte>, e: seq<byte>, f: seq<byte>, g: seq<byte>)
    requires |a| == 4 && |b| == 16 && |c| == 12 && |d| == 4 && |e| == 4 && |f| == 64 && |g| == 32
    ensures var r := a + b + c + d + e + f + g;
            && r[..4] == a && r[4..20] == b && r[20..32] == c && r[32..36] == d && r[36..40] == e && r[40..104] == f
            && r[104..136] == g
  {
  }

  // An entry decodes to its id and to the strings and floats of the report.
  lemma EntryDecodes(id: nat, r: Report)
    requires id < 0x1_0000_0000 && r.Valid()
    ensures Decode(Entry(id, r)) == Decoded(id, Text(r.subsystem), Text(r.severity), r.value, r.threshold,
                                            Text(r.description), Text(r.timestamp))
  {
    var e := Entry(id, r);
    EntryLayout(Int32(id), Copied(r.subsystem), Copied(r.severity), r.value, r.threshold, Copied(r.description),
        Copied(r.timestamp));
    Int32RoundTrip(id);
    TextOfCopied(r.subsystem);
    TextOfCopied(r.severity);
    TextOfCopied(r.description);
    TextOfCopied(r.timestamp);
  }

  // The first n bytes of a string, or all of it.
  function UpTo(s: seq<byte>, n: nat): seq<byte> {
    if |s| <= n then s else s[..n]
  }

  // What each stretch of an entry holds.
  lemma EntryBytes(id: nat, r: Report)
    requires id < 0x1_0000_0000 && r.Valid()
    ensures |Entry(id, r)| == 136
    ensures Entry(id, r)[0] == id % 256 && Entry(id, r)[1] == id / 0x100 % 256
    ensures Entry(id, r)[2] == id / 0x1_0000 % 256 && Entry(id, r)[3] == id / 0x100_0000
    ensures Text(Entry(id, r)[4..20]) == Text(r.subsystem) && Text(Entry(id, r)[20..32]) == Text(r.severity)
    ensures Entry(id, r)[32..36] == r.value && Entry(id, r)[36..40] == r.threshold
    ensures Text(Entry(id, r)[40..104]) == Text(r.description) && Text(Entry(id, r)[104..136]) == Text(r.timestamp)
  {
    EntryDecodes(id, r);
    assert Entry(id, r)[..4] == Int32(id);
  }

  // Whatever strings are passed to a *_send_fault helper, the entry written for the report reads
  // back as those strings, cut to the sizes of their fields, and the same floats.
  lemma ReportRoundTrip(id: nat, subsystem: seq<byte>, severity: seq<byte>, value: seq<byte>, threshold: seq<byte>,
                        description: seq<byte>, timestamp: seq<byte>)
    requires id < 0x1_0000_0000 && |value| == |threshold| == 4
    requires IsText(subsystem) && IsText(severity) && IsText(description) && IsText(timestamp)
    ensures FilledReport(subsystem, severity, value, threshold, description, timestamp).Valid()
    ensures Decode(Entry(id, FilledReport(subsystem, severity, value, threshold, description, timestamp)))
            == Decoded(id, UpTo(subsystem, 15), UpTo(severity, 11), value, threshold,
                       UpTo(description, 63), UpTo(timestamp, 31))
  {
    TextOfField(subsystem, 16);
    TextOfField(severity, 12);
    TextOfField(description, 64);
    TextOfField(timestamp, 32);
    EntryDecodes(id, FilledReport(subsystem, severity, value, threshold, description, timestamp));
  }
}
