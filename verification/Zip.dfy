/**
  * The streaming ZIP writer, against a central-directory reader of PKWARE APPNOTE.TXT sections 4.3.7
  * (local header), 4.3.9 (data descriptor), 4.3.12 (central directory) and 4.3.16 (end record).
  */
module Zip {
  import opened Options
  import opened Bytes
  import opened Crc
  import opened ZipNames
  import Utf8

  const LOCAL_SIG := 0x0403_4b50
  const DESCRIPTOR_SIG := 0x0807_4b50
  const CENTRAL_SIG := 0x0201_4b50
  const EOCD_SIG := 0x0605_4b50
  const VERSION := 20
  const FLAG_UTF8 := 0x0800
  const FLAGS := 0x0808
  const ZIP32_MAX := 0xffff_ffff
  const MAX_ENTRIES := 0xffff
  const MAX_NAME := 0xffff

  datatype ZipError = Overflow | EntryOpen | NoEntry

  /** A file of the archive, as the caller wrote it and as a reader finds it. */
  datatype Entry = Entry(name: seq<Byte>, data: seq<Byte>)

  datatype CentralEntry = CentralEntry(flags: nat, name: seq<Byte>, crc: nat, size: nat, offset: nat)

  datatype OpenEntry = OpenEntry(name: seq<Byte>, offset: nat, crc: bv32, size: nat)

  function NameBytes(raw: string): seq<Byte> {
    Utf8.Encode(EntryName(raw))
  }

  // ---------------------------------------------------------------- records

  /** `put_u16` and `put_u32`: the low octets of the value. */
  function U16(n: nat): (s: seq<Byte>)
    ensures |s| == 2
  {
    LittleEndian(n, 2)
  }

  function U32(n: nat): (s: seq<Byte>)
    ensures |s| == 4
  {
    LittleEndian(n, 4)
  }

  function LocalHeader(flags: nat, crc: nat, size: nat, name: seq<Byte>): (s: seq<Byte>)
    ensures |s| == 30 + |name|
  {
    U32(LOCAL_SIG) + U16(VERSION) + U16(flags) + U16(0) + U16(0) + U16(0)
    + U32(crc) + U32(size) + U32(size) + U16(|name|) + U16(0) + name
  }

  function Descriptor(crc: nat, size: nat): (s: seq<Byte>)
    ensures |s| == 16
  {
    U32(DESCRIPTOR_SIG) + U32(crc) + U32(size) + U32(size)
  }

  function CentralRecord(e: CentralEntry): (s: seq<Byte>)
    ensures |s| == 46 + |e.name|
  {
    U32(CENTRAL_SIG) + U16(VERSION) + U16(VERSION) + U16(e.flags) + U16(0) + U16(0) + U16(0)
    + U32(e.crc) + U32(e.size) + U32(e.size) + U16(|e.name|) + U16(0) + U16(0) + U16(0) + U16(0) + U32(0) + U32(e.offset)
    + e.name
  }

  function Directory(entries: seq<CentralEntry>): seq<Byte> {
    if entries == [] then [] else CentralRecord(entries[0]) + Directory(entries[1..])
  }

  function EndRecord(count: nat, size: nat, start: nat): (s: seq<Byte>)
    ensures |s| == 22
  {
    U32(EOCD_SIG) + U16(0) + U16(0) + U16(count) + U16(count) + U32(size) + U32(start) + U16(0)
  }

  // ---------------------------------------------------------------- the reader

  function U16At(b: seq<Byte>, at: nat): nat
    requires at + 2 <= |b|
  {
    FromLittleEndian(b[at..at + 2])
  }

  function U32At(b: seq<Byte>, at: nat): nat
    requires at + 4 <= |b|
  {
    FromLittleEndian(b[at..at + 4])
  }

  /** One central directory record and the offset after it. */
  function ReadCentral(b: seq<Byte>, at: nat): (r: Option<(CentralEntry, nat)>)
    ensures r.Some? ==> at + 46 <= r.value.1 <= |b|
  {
    if at + 46 > |b| || U32At(b, at) != CENTRAL_SIG || U16At(b, at + 10) != 0 || U32At(b, at + 20) != U32At(b, at + 24) then None
    else
      var name := at + 46 + U16At(b, at + 28);
      var next := name + U16At(b, at + 30) + U16At(b, at + 32);
      if next > |b| then None
      else Some((CentralEntry(U16At(b, at + 8), b[at + 46..name], U32At(b, at + 16), U32At(b, at + 24), U32At(b, at + 42)), next))
  }

  function ReadDirectory(b: seq<Byte>, at: nat, count: nat): Option<(seq<CentralEntry>, nat)>
    decreases count
  {
    if count == 0 then Some(([], at))
    else
      match ReadCentral(b, at)
      case None => None
      case Some((e, next)) =>
        match ReadDirectory(b, next, count - 1)
        case None => None
        case Some((rest, end)) => Some(([e] + rest, end))
  }

  /** Bit 3: CRC and sizes follow the data. */
  predicate Streamed(flags: nat) {
    flags / 8 % 2 == 1
  }

  /** A data descriptor with its signature that repeats the directory's CRC and size. */
  predicate DescriptorAt(b: seq<Byte>, at: nat, crc: nat, size: nat) {
    at + 16 <= |b| && U32At(b, at) == DESCRIPTOR_SIG && U32At(b, at + 4) == crc && U32At(b, at + 8) == size && U32At(b, at + 12) == size
  }

  /** What a local header must say of CRC and sizes: nothing yet for a streamed entry, else what the directory says. */
  predicate LocalAgrees(b: seq<Byte>, at: nat, e: CentralEntry)
    requires at + 30 <= |b|
  {
    var crc, size := if Streamed(e.flags) then 0 else e.crc, if Streamed(e.flags) then 0 else e.size;
    U32At(b, at + 14) == crc && U32At(b, at + 18) == size && U32At(b, at + 22) == size
  }

  /** The stored data a directory entry points at: local header and descriptor agree with the directory, the CRC with the data. */
  function ReadEntry(b: seq<Byte>, e: CentralEntry): Option<Entry> {
    var at := e.offset;
    if at + 30 > |b| || U32At(b, at) != LOCAL_SIG || U16At(b, at + 6) != e.flags || U16At(b, at + 8) != 0 || !LocalAgrees(b, at, e) then None
    else
      var name := at + 30 + U16At(b, at + 26);
      var data := name + U16At(b, at + 28);
      if data + e.size > |b| || b[at + 30..name] != e.name || Crc32(b[data..data + e.size]) != e.crc then None
      else if Streamed(e.flags) && !DescriptorAt(b, data + e.size, e.crc, e.size) then None
      else Some(Entry(e.name, b[data..data + e.size]))
  }

  function ReadEntries(b: seq<Byte>, entries: seq<CentralEntry>): Option<seq<Entry>> {
    if entries == [] then Some([])
    else
      match ReadEntry(b, entries[0])
      case None => None
      case Some(first) =>
        match ReadEntries(b, entries[1..])
        case None => None
        case Some(rest) => Some([first] + rest)
  }

  /** The end record is the last one whose comment reaches exactly to the end of the file. */
  function FindEnd(b: seq<Byte>, at: nat): (r: Option<nat>)
    requires at + 22 <= |b|
    ensures r.Some? ==> r.value + 22 <= |b|
    decreases at
  {
    if U32At(b, at) == EOCD_SIG && at + 22 + U16At(b, at + 20) == |b| then Some(at)
    else if at == 0 then None
    else FindEnd(b, at - 1)
  }

  function ReadArchive(b: seq<Byte>): Option<seq<Entry>> {
    if |b| < 22 then None
    else
      match FindEnd(b, |b| - 22)
      case None => None
      case Some(at) =>
        var start, size := U32At(b, at + 16), U32At(b, at + 12);
        match ReadDirectory(b, start, U16At(b, at + 10))
        case None => None
        case Some((entries, end)) => if end != start + size || end != at then None else ReadEntries(b, entries)
  }

  // ---------------------------------------------------------------- reading records back

  lemma ReadU16(b: seq<Byte>, at: nat, n: nat)
    requires n <= 0xffff && Holds(b, at, U16(n))
    ensures U16At(b, at) == n
  {
    Widths();
    LittleEndianRoundTrip(n, 2);
  }

  lemma ReadU32(b: seq<Byte>, at: nat, n: nat)
    requires n <= 0xffff_ffff && Holds(b, at, U32(n))
    ensures U32At(b, at) == n
  {
    Widths();
    LittleEndianRoundTrip(n, 4);
  }

  lemma LocalFields(a: seq<Byte>, b: seq<Byte>, c: seq<Byte>, d: seq<Byte>, e: seq<Byte>, f: seq<Byte>,
                    g: seq<Byte>, h: seq<Byte>, i: seq<Byte>, j: seq<Byte>, k: seq<Byte>, name: seq<Byte>)
    requires |a| == |g| == |h| == |i| == 4 && |b| == |c| == |d| == |e| == |f| == |j| == |k| == 2
    ensures var s := a + b + c + d + e + f + g + h + i + j + k + name;
            && Holds(s, 0, a) && Holds(s, 6, c) && Holds(s, 8, d) && Holds(s, 14, g) && Holds(s, 18, h) && Holds(s, 22, i)
            && Holds(s, 26, j) && Holds(s, 28, k) && Holds(s, 30, name)
  {
  }

  lemma CentralFields(a: seq<Byte>, b: seq<Byte>, c: seq<Byte>, d: seq<Byte>, e: seq<Byte>, f: seq<Byte>, g: seq<Byte>,
                      h: seq<Byte>, i: seq<Byte>, j: seq<Byte>, k: seq<Byte>, l: seq<Byte>, m: seq<Byte>, n: seq<Byte>,
                      o: seq<Byte>, p: seq<Byte>, q: seq<Byte>, name: seq<Byte>)
    requires |a| == |h| == |i| == |j| == |p| == |q| == 4
    requires |b| == |c| == |d| == |e| == |f| == |g| == |k| == |l| == |m| == |n| == |o| == 2
    ensures var s := a + b + c + d + e + f + g + h + i + j + k + l + m + n + o + p + q + name;
            && Holds(s, 0, a) && Holds(s, 8, d) && Holds(s, 10, e) && Holds(s, 16, h) && Holds(s, 20, i) && Holds(s, 24, j)
            && Holds(s, 28, k) && Holds(s, 30, l) && Holds(s, 32, m) && Holds(s, 42, q) && Holds(s, 46, name)
  {
  }

  lemma EndFields(a: seq<Byte>, b: seq<Byte>, c: seq<Byte>, d: seq<Byte>, e: seq<Byte>, f: seq<Byte>, g: seq<Byte>, h: seq<Byte>)
    requires |a| == |f| == |g| == 4 && |b| == |c| == |d| == |e| == |h| == 2
    ensures var s := a + b + c + d + e + f + g + h;
            Holds(s, 0, a) && Holds(s, 10, e) && Holds(s, 12, f) && Holds(s, 16, g) && Holds(s, 20, h)
  {
  }

  /** The values of a directory entry fit their fields: every cast in the source is lossless. */
  ghost predicate Fits(e: CentralEntry) {
    && e.flags <= 0xffff && e.crc <= 0xffff_ffff && e.size <= ZIP32_MAX && e.offset <= ZIP32_MAX && |e.name| <= MAX_NAME
  }

  lemma CentralIsRead(b: seq<Byte>, at: nat, e: CentralEntry)
    requires Fits(e) && Holds(b, at, CentralRecord(e))
    ensures ReadCentral(b, at) == Some((e, at + 46 + |e.name|))
  {
    hide U16, U32, FromLittleEndian, LittleEndian;
    var s := CentralRecord(e);
    CentralFields(U32(CENTRAL_SIG), U16(VERSION), U16(VERSION), U16(e.flags), U16(0), U16(0), U16(0),
                  U32(e.crc), U32(e.size), U32(e.size), U16(|e.name|), U16(0), U16(0), U16(0), U16(0), U32(0), U32(e.offset), e.name);
    Field32(b, at, s, 0, CENTRAL_SIG);
    Field16(b, at, s, 8, e.flags);
    Field16(b, at, s, 10, 0);
    Field32(b, at, s, 16, e.crc);
    Field32(b, at, s, 20, e.size);
    Field32(b, at, s, 24, e.size);
    Field16(b, at, s, 28, |e.name|);
    Field16(b, at, s, 30, 0);
    Field16(b, at, s, 32, 0);
    Field32(b, at, s, 42, e.offset);
    HoldsTrans(b, at, s, 46, e.name);
  }

  lemma Field16(b: seq<Byte>, at: nat, record: seq<Byte>, i: nat, n: nat)
    requires n <= 0xffff && Holds(b, at, record) && Holds(record, i, U16(n))
    ensures at + i + 2 <= |b| && U16At(b, at + i) == n
  {
    HoldsTrans(b, at, record, i, U16(n));
    ReadU16(b, at + i, n);
  }

  lemma Field32(b: seq<Byte>, at: nat, record: seq<Byte>, i: nat, n: nat)
    requires n <= 0xffff_ffff && Holds(b, at, record) && Holds(record, i, U32(n))
    ensures at + i + 4 <= |b| && U32At(b, at + i) == n
  {
    HoldsTrans(b, at, record, i, U32(n));
    ReadU32(b, at + i, n);
  }

  lemma {:induction false} DirectoryParts(b: seq<Byte>, at: nat, entries: seq<CentralEntry>)
    requires entries != [] && Holds(b, at, Directory(entries))
    ensures var first := CentralRecord(entries[0]);
            && |Directory(entries)| == |first| + |Directory(entries[1..])|
            && Holds(b, at, first) && Holds(b, at + |first|, Directory(entries[1..]))
  {
    hide CentralRecord, Holds;
    var first, rest := CentralRecord(entries[0]), Directory(entries[1..]);
    HoldsStart(first, rest);
    HoldsEnd(first, rest);
    HoldsTrans(b, at, first + rest, 0, first);
    HoldsTrans(b, at, first + rest, |first|, rest);
  }

  lemma ReadFirst(b: seq<Byte>, at: nat, count: nat, e: CentralEntry, next: nat, rest: seq<CentralEntry>, end: nat)
    requires count > 0 && ReadCentral(b, at) == Some((e, next)) && ReadDirectory(b, next, count - 1) == Some((rest, end))
    ensures ReadDirectory(b, at, count) == Some(([e] + rest, end))
  {
    hide ReadCentral;
  }

  lemma {:induction false} DirectoryIsRead(b: seq<Byte>, at: nat, entries: seq<CentralEntry>)
    requires forall i | 0 <= i < |entries| :: Fits(entries[i])
    requires Holds(b, at, Directory(entries))
    ensures ReadDirectory(b, at, |entries|) == Some((entries, at + |Directory(entries)|))
    decreases |entries|
  {
    hide CentralRecord, ReadCentral, Holds, Fits, ReadDirectory, Directory;
    if entries == [] {
      NoRecords(b, at);
    } else {
      DirectoryParts(b, at, entries);
      CentralIsRead(b, at, entries[0]);
      var next, rest := at + 46 + |entries[0].name|, entries[1..];
      DirectoryIsRead(b, next, rest);
      ReadFirst(b, at, |entries|, entries[0], next, rest, next + |Directory(rest)|);
      assert entries == [entries[0]] + rest;
    }
  }

  lemma {:induction false} NoRecords(b: seq<Byte>, at: nat)
    ensures ReadDirectory(b, at, 0) == Some(([], at)) && Directory([]) == []
  {
  }

  /** Directory entry `e` describes `w`: its local header, data and, if streamed, descriptor are where it says, and its CRC is the data's. */
  ghost predicate Describes(out: seq<Byte>, e: CentralEntry, w: Entry) {
    && Fits(e) && (e.flags == FLAG_UTF8 || e.flags == FLAGS)
    && e.name == w.name && e.size == |w.data| && e.crc == Crc32(w.data)
    && (if e.flags == FLAGS then Holds(out, e.offset, LocalHeader(FLAGS, 0, 0, e.name))
        else Holds(out, e.offset, LocalHeader(FLAG_UTF8, e.crc, e.size, e.name)))
    && Holds(out, e.offset + 30 + |e.name|, w.data)
    && (e.flags == FLAGS ==> Holds(out, e.offset + 30 + |e.name| + e.size, Descriptor(e.crc, e.size)))
  }

  lemma HoldsGrow(b: seq<Byte>, at: nat, part: seq<Byte>, more: seq<Byte>)
    requires Holds(b, at, part)
    ensures Holds(b + more, at, part)
  {
    assert (b + more)[..|b|] == b;
    assert (b + more)[at..at + |part|] == b[at..at + |part|];
  }

  lemma DescribesGrow(out: seq<Byte>, e: CentralEntry, w: Entry, more: seq<Byte>)
    requires Describes(out, e, w)
    ensures Describes(out + more, e, w)
  {
    hide LocalHeader, Crc32, Holds, Descriptor;
    if e.flags == FLAGS {
      HoldsGrow(out, e.offset, LocalHeader(FLAGS, 0, 0, e.name), more);
      HoldsGrow(out, e.offset + 30 + |e.name| + e.size, Descriptor(e.crc, e.size), more);
    } else {
      HoldsGrow(out, e.offset, LocalHeader(FLAG_UTF8, e.crc, e.size, e.name), more);
    }
    HoldsGrow(out, e.offset + 30 + |e.name|, w.data, more);
  }

  lemma LocalIsRead(b: seq<Byte>, at: nat, flags: nat, crc: nat, size: nat, name: seq<Byte>)
    requires flags <= 0xffff && crc <= 0xffff_ffff && size <= ZIP32_MAX && |name| <= MAX_NAME && Holds(b, at, LocalHeader(flags, crc, size, name))
    ensures at + 30 + |name| <= |b| && U32At(b, at) == LOCAL_SIG && U16At(b, at + 6) == flags && U16At(b, at + 8) == 0
    ensures U32At(b, at + 14) == crc && U32At(b, at + 18) == size && U32At(b, at + 22) == size
    ensures U16At(b, at + 26) == |name| && U16At(b, at + 28) == 0 && b[at + 30..at + 30 + |name|] == name
  {
    hide U16, U32;
    var s := LocalHeader(flags, crc, size, name);
    LocalFields(U32(LOCAL_SIG), U16(VERSION), U16(flags), U16(0), U16(0), U16(0), U32(crc), U32(size), U32(size), U16(|name|), U16(0), name);
    Field32(b, at, s, 0, LOCAL_SIG);
    Field16(b, at, s, 6, flags);
    Field16(b, at, s, 8, 0);
    Field32(b, at, s, 14, crc);
    Field32(b, at, s, 18, size);
    Field32(b, at, s, 22, size);
    Field16(b, at, s, 26, |name|);
    Field16(b, at, s, 28, 0);
    HoldsTrans(b, at, s, 30, name);
  }

  lemma DescriptorFields(a: seq<Byte>, b: seq<Byte>, c: seq<Byte>, d: seq<Byte>)
    requires |a| == |b| == |c| == |d| == 4
    ensures var s := a + b + c + d; Holds(s, 0, a) && Holds(s, 4, b) && Holds(s, 8, c) && Holds(s, 12, d)
  {
  }

  lemma DescriptorIsRead(b: seq<Byte>, at: nat, crc: nat, size: nat)
    requires crc <= 0xffff_ffff && size <= ZIP32_MAX && Holds(b, at, Descriptor(crc, size))
    ensures DescriptorAt(b, at, crc, size)
  {
    hide U32;
    var s := Descriptor(crc, size);
    DescriptorFields(U32(DESCRIPTOR_SIG), U32(crc), U32(size), U32(size));
    Field32(b, at, s, 0, DESCRIPTOR_SIG);
    Field32(b, at, s, 4, crc);
    Field32(b, at, s, 8, size);
    Field32(b, at, s, 12, size);
  }

  lemma EntryIsRead(b: seq<Byte>, e: CentralEntry, w: Entry)
    requires Describes(b, e, w)
    ensures ReadEntry(b, e) == Some(w)
  {
    hide LocalHeader, Crc32, U16At, U32At, Descriptor, DescriptorAt;
    if e.flags == FLAGS {
      LocalIsRead(b, e.offset, FLAGS, 0, 0, e.name);
      DescriptorIsRead(b, e.offset + 30 + |e.name| + e.size, e.crc, e.size);
    } else {
      LocalIsRead(b, e.offset, FLAG_UTF8, e.crc, e.size, e.name);
    }
  }

  ghost predicate DescribesAll(out: seq<Byte>, entries: seq<CentralEntry>, written: seq<Entry>) {
    |entries| == |written| && forall i | 0 <= i < |entries| :: Describes(out, entries[i], written[i])
  }

  lemma DescribesAllGrow(out: seq<Byte>, entries: seq<CentralEntry>, written: seq<Entry>, more: seq<Byte>)
    requires DescribesAll(out, entries, written)
    ensures DescribesAll(out + more, entries, written)
  {
    hide Describes;
    forall i | 0 <= i < |entries|
      ensures Describes(out + more, entries[i], written[i])
    {
      DescribesGrow(out, entries[i], written[i], more);
    }
  }

  lemma DescribesAllSnoc(out: seq<Byte>, entries: seq<CentralEntry>, written: seq<Entry>, e: CentralEntry, w: Entry)
    requires DescribesAll(out, entries, written) && Describes(out, e, w)
    ensures DescribesAll(out, entries + [e], written + [w])
  {
    hide Describes;
  }

  lemma {:induction false} EntriesAreRead(b: seq<Byte>, entries: seq<CentralEntry>, written: seq<Entry>)
    requires DescribesAll(b, entries, written)
    ensures ReadEntries(b, entries) == Some(written)
    decreases |entries|
  {
    hide Describes, ReadEntry;
    if entries != [] {
      assert Describes(b, entries[0], written[0]);
      EntryIsRead(b, entries[0], written[0]);
      EntriesAreRead(b, entries[1..], written[1..]);
      assert written == [written[0]] + written[1..];
    }
  }

  /** A finished archive: what was put out, the directory of it, and the end record. */
  lemma {:induction false} ArchiveIsRead(out: seq<Byte>, entries: seq<CentralEntry>, written: seq<Entry>)
    requires DescribesAll(out, entries, written) && |entries| <= MAX_ENTRIES
    requires |out| + |Directory(entries)| <= ZIP32_MAX
    ensures ReadArchive(out + Directory(entries) + EndRecord(|entries|, |Directory(entries)|, |out|)) == Some(written)
  {
    hide EndRecord, Directory, ReadDirectory, ReadEntries, U16At, U32At, LocalHeader, Crc32;
    var d := Directory(entries);
    var end := EndRecord(|entries|, |d|, |out|);
    var b, at := out + d + end, |out| + |d|;
    HoldsMiddle(out, d, end);
    HoldsEnd(out + d, end);
    EndIsRead(b, at, |entries|, |d|, |out|);
    assert FindEnd(b, at) == Some(at);
    forall i | 0 <= i < |entries|
      ensures Fits(entries[i])
    {
      assert Describes(out, entries[i], written[i]);
    }
    DirectoryIsRead(b, |out|, entries);
    assert b == out + (d + end);
    DescribesAllGrow(out, entries, written, d + end);
    EntriesAreRead(b, entries, written);
  }

  lemma EndIsRead(b: seq<Byte>, at: nat, count: nat, size: nat, start: nat)
    requires count <= 0xffff && size <= 0xffff_ffff && start <= 0xffff_ffff && Holds(b, at, EndRecord(count, size, start))
    ensures at + 22 <= |b| && U32At(b, at) == EOCD_SIG && U16At(b, at + 10) == count && U32At(b, at + 12) == size
    ensures U32At(b, at + 16) == start && U16At(b, at + 20) == 0
  {
    hide U16, U32;
    var s := EndRecord(count, size, start);
    EndFields(U32(EOCD_SIG), U16(0), U16(0), U16(count), U16(count), U32(size), U32(start), U16(0));
    Field32(b, at, s, 0, EOCD_SIG);
    Field16(b, at, s, 10, count);
    Field32(b, at, s, 12, size);
    Field32(b, at, s, 16, start);
    Field16(b, at, s, 20, 0);
  }

  // ---------------------------------------------------------------- tiling

  /** Where a record ends: header, name, data and, for a streamed entry, its descriptor. */
  function RecordEnd(e: CentralEntry): nat {
    e.offset + 30 + |e.name| + e.size + if e.flags == FLAGS then 16 else 0
  }

  /** The local records follow each other from 0 to `end` without a gap. */
  ghost predicate Tiles(entries: seq<CentralEntry>, end: nat) {
    if entries == [] then end == 0
    else
      var last := entries[|entries| - 1];
      RecordEnd(last) == end && Tiles(entries[..|entries| - 1], last.offset)
  }

  lemma {:induction false} TilesSnoc(entries: seq<CentralEntry>, e: CentralEntry)
    requires Tiles(entries, e.offset)
    ensures Tiles(entries + [e], RecordEnd(e))
  {
    hide RecordEnd;
    assert (entries + [e])[..|entries|] == entries;
  }

  /** Tiling, record by record. */
  lemma {:induction false} TilesMeansAdjacent(entries: seq<CentralEntry>, end: nat, i: nat)
    requires Tiles(entries, end) && i < |entries|
    ensures entries[0].offset == 0
    ensures RecordEnd(entries[i]) == if i == |entries| - 1 then end else entries[i + 1].offset
    decreases |entries|
  {
    var last := |entries| - 1;
    if last > 0 {
      TilesMeansAdjacent(entries[..last], entries[last].offset, if i < last then i else 0);
    }
  }

  // ---------------------------------------------------------------- the writer

  class ZipStream {
    var offset: nat
    var entries: seq<CentralEntry>
    var open: Option<OpenEntry>

    /** Every byte the caller has forwarded, the entries finished so far and the data of the open one. */
    ghost var out: seq<Byte>
    ghost var written: seq<Entry>
    ghost var pending: seq<Byte>
    /** No call has failed after changing the entry it was about. */
    ghost var clean: bool

    /** The open entry's header is in place and everything after it is its data so far. */
    ghost predicate OpenHeld(o: OpenEntry)
      reads this
    {
      && o.offset <= ZIP32_MAX && |o.name| <= MAX_NAME && |entries| < MAX_ENTRIES
      && o.size == |pending| <= ZIP32_MAX && o.crc == Update(INITIAL, pending)
      && offset == o.offset + 30 + |o.name| + |pending|
      && Holds(out, o.offset, LocalHeader(FLAGS, 0, 0, o.name))
      && Holds(out, o.offset + 30 + |o.name|, pending)
    }

    ghost predicate Valid()
      reads this
    {
      clean ==>
        && |out| == offset && |entries| <= MAX_ENTRIES
        && DescribesAll(out, entries, written)
        && Tiles(entries, if open.Some? then open.value.offset else offset)
        && (if open.Some? then OpenHeld(open.value) else pending == [])
    }

    constructor ()
      ensures Valid() && clean && out == [] && written == [] && open == None && entries == []
    {
      offset, entries, open := 0, [], None;
      out, written, pending, clean := [], [], [], true;
    }

    /** Starts a streamed entry; refuses inside one, past 65,535 entries, past 4 GiB or for a name over 65,535 octets. */
    method BeginEntry(raw: string) returns (r: Result<seq<Byte>, ZipError>)
      requires Valid()
      modifies this
      ensures Valid() && clean == old(clean)
      ensures r == Err(EntryOpen) <==> old(open.Some?)
      ensures r == Err(Overflow) <==>
                old(open.None? && (|entries| >= MAX_ENTRIES || offset > ZIP32_MAX)) || (old(open.None?) && |NameBytes(raw)| > MAX_NAME)
      ensures r.Err? ==> r != Err(NoEntry) && unchanged(this)
      ensures r.Ok? ==>
                && out == old(out) + r.value && written == old(written) && pending == []
                && open.Some? && open.value.name == NameBytes(raw) && entries == old(entries)
                && r.value == LocalHeader(FLAGS, 0, 0, NameBytes(raw)) && offset == old(offset) + |r.value|
    {
      hide LocalHeader, NameBytes, Step, Describes, DescribesAll, Tiles;
      if open.Some? {
        return Err(EntryOpen);
      }
      if |entries| >= MAX_ENTRIES {
        return Err(Overflow);
      }
      var name := NameBytes(raw);
      if |name| > MAX_NAME || offset > ZIP32_MAX {
        return Err(Overflow);
      }
      var bytes := PutLocalHeader(FLAGS, 0, 0, name);
      if clean {
        DescribesAllGrow(out, entries, written, bytes);
        HoldsEnd(out, bytes);
      }
      open := Some(OpenEntry(name, offset, INITIAL, 0));
      offset := offset + |bytes|;
      out, pending := out + bytes, [];
      return Ok(bytes);
    }

    /** A complete entry with CRC and sizes in its local header. */
    method WholeEntry(raw: string, data: seq<Byte>) returns (r: Result<seq<Byte>, ZipError>)
      requires Valid()
      modifies this
      ensures Valid() && clean == old(clean)
      ensures r == Err(EntryOpen) <==> old(open.Some?)
      ensures r == Err(Overflow) <==>
                old(open.None?) && (old(|entries|) >= MAX_ENTRIES || |NameBytes(raw)| > MAX_NAME
                                    || old(offset) + 30 + |NameBytes(raw)| + |data| > ZIP32_MAX)
      ensures r.Err? ==> r != Err(NoEntry) && unchanged(this)
      ensures r.Ok? ==>
                && out == old(out) + r.value && open == None
                && written == old(written) + [Entry(NameBytes(raw), data)]
                && r.value == LocalHeader(FLAG_UTF8, Crc32(data), |data|, NameBytes(raw)) + data && offset == old(offset) + |r.value|
    {
      hide LocalHeader, NameBytes, Update, Describes, DescribesAll, Tiles, Crc32, Holds;
      if open.Some? {
        return Err(EntryOpen);
      }
      if |entries| >= MAX_ENTRIES {
        return Err(Overflow);
      }
      var name := NameBytes(raw);
      if |name| > MAX_NAME || offset > ZIP32_MAX || |data| > ZIP32_MAX {
        return Err(Overflow);
      }
      var crc := Crc32(data);
      var header := PutLocalHeader(FLAG_UTF8, crc, |data|, name);
      var bytes := header + data;
      if offset + |bytes| > ZIP32_MAX {
        return Err(Overflow);
      }
      var e := CentralEntry(FLAG_UTF8, name, crc, |data|, offset);
      if clean {
        AddWhole(out, entries, written, e, header, data);
      }
      offset := offset + |bytes|;
      entries := entries + [e];
      out, written := out + bytes, written + [Entry(name, data)];
      return Ok(bytes);
    }

    /** Accounts for a chunk the caller forwards; an entry past 4 GiB is refused and leaves the stream unusable. */
    method EntryData(data: seq<Byte>) returns (r: Result<(), ZipError>)
      requires Valid()
      modifies this
      ensures Valid()
      ensures r == Err(NoEntry) <==> old(open.None?)
      ensures r == Err(Overflow) <==> old(open.Some?) && old(open).value.size + |data| > ZIP32_MAX
      ensures r != Err(EntryOpen)
      ensures r == Err(NoEntry) ==> unchanged(this)
      ensures r == Err(Overflow) ==> !clean
      ensures r.Ok? ==>
                && clean == old(clean) && out == old(out) + data && pending == old(pending) + data
                && written == old(written) && open.Some? && open.value.name == old(open).value.name
    {
      hide LocalHeader, Update, Describes, DescribesAll, Tiles, Holds;
      if open.None? {
        return Err(NoEntry);
      }
      var o := open.value;
      if clean {
        AddData(out, o, pending, data);
        DescribesAllGrow(out, entries, written, data);
      }
      o := OpenEntry(o.name, o.offset, Update(o.crc, data), o.size + |data|);
      open := Some(o);
      if o.size > ZIP32_MAX {
        clean := false;
        return Err(Overflow);
      }
      offset := offset + |data|;
      out, pending := out + data, pending + data;
      return Ok(());
    }

    /** Ends the streamed entry with its descriptor; on a clean stream it fails only when no entry is open. */
    method EndEntry() returns (r: Result<seq<Byte>, ZipError>)
      requires Valid()
      modifies this
      ensures Valid()
      ensures r == Err(NoEntry) <==> old(open.None?)
      ensures r == Err(Overflow) <==> old(open.Some?) && (old(open).value.size > ZIP32_MAX || old(open).value.offset > ZIP32_MAX)
      ensures r != Err(EntryOpen)
      ensures r == Err(NoEntry) ==> unchanged(this)
      ensures r == Err(Overflow) ==> !clean && open == None && entries == old(entries) && offset == old(offset)
      ensures old(clean && open.Some?) ==> r.Ok?
      ensures r.Ok? ==>
                && clean == old(clean) && out == old(out) + r.value && open == None
                && written == old(written) + [Entry(old(open).value.name, old(pending))]
      ensures r.Ok? && clean ==> r.value == Descriptor(Crc32(old(pending)), |old(pending)|)
    {
      hide LocalHeader, Update, U32, Describes, DescribesAll, Tiles, Holds, Sum;
      if open.None? {
        return Err(NoEntry);
      }
      var o := open.value;
      open := None;
      var crc := Sum(o.crc);
      if o.size > ZIP32_MAX || o.offset > ZIP32_MAX {
        clean := false;
        return Err(Overflow);
      }
      var bytes := U32(DESCRIPTOR_SIG);
      bytes := bytes + U32(crc);
      bytes := bytes + U32(o.size);
      bytes := bytes + U32(o.size);
      var e := CentralEntry(FLAGS, o.name, crc, o.size, o.offset);
      if clean {
        AddStreamed(out, entries, written, e, pending);
      }
      entries := entries + [e];
      offset := offset + |bytes|;
      out, written, pending := out + bytes, written + [Entry(o.name, pending)], [];
      return Ok(bytes);
    }

    /**
      * Writes the central directory and the end record. A central-directory reader of everything put
      * out on a clean stream then finds exactly the written entries, in order.
      */
    method Finish() returns (r: Result<seq<Byte>, ZipError>)
      requires Valid()
      ensures r == Err(EntryOpen) <==> open.Some?
      ensures r == Err(Overflow) <==> open.None? && offset + |Directory(entries)| > ZIP32_MAX
      ensures r != Err(NoEntry)
      ensures clean && r.Ok? ==> ReadArchive(out + r.value) == Some(written)
      ensures clean && r.Ok? ==> Tiles(entries, |out|) && Holds(out + r.value, |out|, Directory(entries))
    {
      hide Describes, DescribesAll, Tiles, ReadArchive, Holds, CentralRecord, EndRecord;
      if open.Some? {
        return Err(EntryOpen);
      }
      if offset > ZIP32_MAX {
        return Err(Overflow);
      }
      var bytes := [];
      for i := 0 to |entries|
        invariant bytes == Directory(entries[..i])
      {
        DirectorySnoc(entries[..i], entries[i]);
        assert entries[..i + 1] == entries[..i] + [entries[i]];
        var record := PutCentralRecord(entries[i]);
        bytes := bytes + record;
      }
      assert entries[..|entries|] == entries;
      var size := |bytes|;
      if size > ZIP32_MAX || offset + size > ZIP32_MAX {
        return Err(Overflow);
      }
      var end := PutEndRecord(|entries|, size, offset);
      if clean {
        ArchiveIsRead(out, entries, written);
        assert out + (bytes + end) == out + bytes + end;
        HoldsMiddle(out, bytes, end);
      }
      return Ok(bytes + end);
    }
  }

  method PutLocalHeader(flags: nat, crc: nat, size: nat, name: seq<Byte>) returns (bytes: seq<Byte>)
    ensures bytes == LocalHeader(flags, crc, size, name)
  {
    bytes := U32(LOCAL_SIG);
    bytes := bytes + U16(VERSION);
    bytes := bytes + U16(flags);
    bytes := bytes + U16(0);
    bytes := bytes + U16(0);
    bytes := bytes + U16(0);
    bytes := bytes + U32(crc);
    bytes := bytes + U32(size);
    bytes := bytes + U32(size);
    bytes := bytes + U16(|name|);
    bytes := bytes + U16(0);
    bytes := bytes + name;
  }

  method PutCentralRecord(e: CentralEntry) returns (bytes: seq<Byte>)
    ensures bytes == CentralRecord(e)
  {
    bytes := U32(CENTRAL_SIG);
    bytes := bytes + U16(VERSION);
    bytes := bytes + U16(VERSION);
    bytes := bytes + U16(e.flags);
    bytes := bytes + U16(0);
    bytes := bytes + U16(0);
    bytes := bytes + U16(0);
    bytes := bytes + U32(e.crc);
    bytes := bytes + U32(e.size);
    bytes := bytes + U32(e.size);
    bytes := bytes + U16(|e.name|);
    bytes := bytes + U16(0);
    bytes := bytes + U16(0);
    bytes := bytes + U16(0);
    bytes := bytes + U16(0);
    bytes := bytes + U32(0);
    bytes := bytes + U32(e.offset);
    bytes := bytes + e.name;
  }

  method PutEndRecord(count: nat, size: nat, start: nat) returns (bytes: seq<Byte>)
    ensures bytes == EndRecord(count, size, start)
  {
    bytes := U32(EOCD_SIG);
    bytes := bytes + U16(0);
    bytes := bytes + U16(0);
    bytes := bytes + U16(count);
    bytes := bytes + U16(count);
    bytes := bytes + U32(size);
    bytes := bytes + U32(start);
    bytes := bytes + U16(0);
  }

  lemma {:induction false} DirectorySnoc(entries: seq<CentralEntry>, e: CentralEntry)
    ensures Directory(entries + [e]) == Directory(entries) + CentralRecord(e)
  {
    hide CentralRecord;
    if entries == [] {
      assert [e][1..] == [] && entries + [e] == [e];
      assert CentralRecord(e) + [] == CentralRecord(e);
    } else {
      DirectorySnoc(entries[1..], e);
      assert (entries + [e])[1..] == entries[1..] + [e];
      Glue(CentralRecord(entries[0]), Directory(entries[1..]), CentralRecord(e));
    }
  }

  lemma Glue(a: seq<Byte>, b: seq<Byte>, c: seq<Byte>)
    ensures a + (b + c) == a + b + c
  {
  }

  // ---------------------------------------------------------------- one step of the writer

  lemma {:induction false} AddWhole(out: seq<Byte>, entries: seq<CentralEntry>, written: seq<Entry>, e: CentralEntry, header: seq<Byte>, data: seq<Byte>)
    requires DescribesAll(out, entries, written) && Tiles(entries, |out|)
    requires e.offset == |out| <= ZIP32_MAX && e.flags == FLAG_UTF8 && |e.name| <= MAX_NAME
    requires e.size == |data| <= ZIP32_MAX && e.crc == Crc32(data) && header == LocalHeader(FLAG_UTF8, e.crc, e.size, e.name)
    ensures DescribesAll(out + (header + data), entries + [e], written + [Entry(e.name, data)])
    ensures Tiles(entries + [e], |out| + |header + data|)
  {
    hide LocalHeader, Crc32, Tiles, DescribesAll;
    var all := out + (header + data);
    DescribesAllGrow(out, entries, written, header + data);
    Glue(out, header, data);
    HoldsMiddle(out, header, data);
    HoldsEnd(out + header, data);
    assert Describes(all, e, Entry(e.name, data));
    DescribesAllSnoc(all, entries, written, e, Entry(e.name, data));
    TilesSnoc(entries, e);
  }

  lemma {:induction false} AddData(out: seq<Byte>, o: OpenEntry, pending: seq<Byte>, data: seq<Byte>)
    requires Holds(out, o.offset, LocalHeader(FLAGS, 0, 0, o.name))
    requires Holds(out, o.offset + 30 + |o.name|, pending) && |out| == o.offset + 30 + |o.name| + |pending|
    requires o.crc == Update(INITIAL, pending)
    ensures Holds(out + data, o.offset, LocalHeader(FLAGS, 0, 0, o.name))
    ensures Holds(out + data, o.offset + 30 + |o.name|, pending + data)
    ensures Update(o.crc, data) == Update(INITIAL, pending + data)
  {
    hide LocalHeader, Crc.Update, Crc.Step;
    HoldsGrow(out, o.offset, LocalHeader(FLAGS, 0, 0, o.name), data);
    var at := o.offset + 30 + |o.name|;
    assert out == out[..at] + pending;
    Glue(out[..at], pending, data);
    HoldsEnd(out[..at], pending + data);
    UpdateConcat(INITIAL, pending, data);
  }

  lemma {:induction false} AddStreamed(out: seq<Byte>, entries: seq<CentralEntry>, written: seq<Entry>, e: CentralEntry, data: seq<Byte>)
    requires DescribesAll(out, entries, written) && Tiles(entries, e.offset)
    requires Fits(e) && e.flags == FLAGS && e.size == |data| && e.crc == Crc32(data)
    requires |out| == e.offset + 30 + |e.name| + |data|
    requires Holds(out, e.offset, LocalHeader(FLAGS, 0, 0, e.name)) && Holds(out, e.offset + 30 + |e.name|, data)
    ensures DescribesAll(out + Descriptor(e.crc, e.size), entries + [e], written + [Entry(e.name, data)])
    ensures Tiles(entries + [e], |out| + 16)
  {
    hide LocalHeader, Crc32, Tiles, DescribesAll, Descriptor, Holds;
    var more := Descriptor(e.crc, e.size);
    DescribesAllGrow(out, entries, written, more);
    HoldsGrow(out, e.offset, LocalHeader(FLAGS, 0, 0, e.name), more);
    HoldsGrow(out, e.offset + 30 + |e.name|, data, more);
    HoldsEnd(out, more);
    assert Describes(out + more, e, Entry(e.name, data));
    DescribesAllSnoc(out + more, entries, written, e, Entry(e.name, data));
    TilesSnoc(entries, e);
  }

  // ---------------------------------------------------------------- whole runs

  datatype Call = Begin(raw: string) | Data(chunk: seq<Byte>) | End | Whole(raw: string, data: seq<Byte>)

  /** The entries a run of calls describes, and the one still open. */
  datatype Script = Script(done: seq<Entry>, current: Option<Entry>)

  function Play(calls: seq<Call>): Script {
    if calls == [] then Script([], None)
    else
      Played(Play(calls[..|calls| - 1]), calls[|calls| - 1])
  }

  function Played(s: Script, call: Call): Script {
    match call
    case Begin(raw) => Script(s.done, Some(Entry(NameBytes(raw), [])))
    case Data(chunk) => if s.current.None? then s else Script(s.done, Some(Entry(s.current.value.name, s.current.value.data + chunk)))
    case End => if s.current.None? then s else Script(s.done + [s.current.value], None)
    case Whole(raw, data) => Script(s.done + [Entry(NameBytes(raw), data)], s.current)
  }

  /** A call fits the state it finds: entries do not nest, data and ends belong to an open one. */
  predicate Nests(s: Script, call: Call) {
    if call.Begin? || call.Whole? then s.current.None? else s.current.Some?
  }

  ghost predicate WellNested(calls: seq<Call>) {
    forall i | 0 <= i < |calls| :: Nests(Play(calls[..i]), calls[i])
  }

  /** The octets a call puts out. */
  function Cost(call: Call): nat {
    match call
    case Begin(raw) => 30 + |NameBytes(raw)|
    case Data(chunk) => |chunk|
    case End => 16
    case Whole(raw, data) => 30 + |NameBytes(raw)| + |data|
  }

  function Put(calls: seq<Call>): nat {
    if calls == [] then 0 else Put(calls[..|calls| - 1]) + Cost(calls[|calls| - 1])
  }

  function DirectorySize(done: seq<Entry>): nat {
    if done == [] then 0 else DirectorySize(done[..|done| - 1]) + 46 + |done[|done| - 1].name|
  }

  function Begun(s: Script): nat {
    |s.done| + if s.current.Some? then 1 else 0
  }

  ghost predicate NamesFit(s: Script) {
    && (forall i | 0 <= i < |s.done| :: |s.done[i].name| <= MAX_NAME)
    && (s.current.Some? ==> |s.current.value.name| <= MAX_NAME)
  }

  /** What zip32 can hold: well-nested calls that leave nothing open, at most 65,535 entries, names within 65,535 octets, everything but the end record within 4 GiB. */
  ghost predicate Writable(calls: seq<Call>) {
    var s := Play(calls);
    && WellNested(calls) && s.current.None?
    && |s.done| <= MAX_ENTRIES && NamesFit(s) && Put(calls) + DirectorySize(s.done) <= ZIP32_MAX
  }

  lemma PlayNext(calls: seq<Call>, i: nat)
    requires i < |calls|
    ensures Play(calls[..i + 1]) == Played(Play(calls[..i]), calls[i]) && Put(calls[..i + 1]) == Put(calls[..i]) + Cost(calls[i])
  {
    hide NameBytes, Cost;
    assert calls[..i + 1][..i] == calls[..i];
  }

  /** A run that nests loses nothing on the way. */
  lemma {:induction false} PrefixOf(calls: seq<Call>, i: nat)
    requires WellNested(calls) && i <= |calls|
    ensures Put(calls[..i]) <= Put(calls) && Begun(Play(calls[..i])) <= Begun(Play(calls))
    ensures NamesFit(Play(calls)) ==> NamesFit(Play(calls[..i]))
    decreases |calls| - i
  {
    hide NameBytes, Cost, Play, Put;
    if i < |calls| {
      PrefixOf(calls, i + 1);
      PlayNext(calls, i);
      assert Nests(Play(calls[..i]), calls[i]);
      StepKeeps(Play(calls[..i]), calls[i]);
    } else {
      assert calls[..i] == calls;
    }
  }

  lemma StepKeeps(s: Script, call: Call)
    requires Nests(s, call)
    ensures Begun(s) <= Begun(Played(s, call)) && (NamesFit(Played(s, call)) ==> NamesFit(s))
    ensures call.Begin? || call.Whole? ==> Begun(s) + 1 == Begun(Played(s, call)) && (NamesFit(Played(s, call)) ==> |NameBytes(call.raw)| <= MAX_NAME)
  {
    hide NameBytes;
    var e := Played(s, call);
    if NamesFit(e) {
      forall i | 0 <= i < |s.done|
        ensures |s.done[i].name| <= MAX_NAME
      {
        assert e.done[i] == s.done[i];
      }
      if call.Whole? || call.End? {
        assert |e.done[|s.done|].name| <= MAX_NAME;
      }
    }
  }

  lemma NestedSoFar(calls: seq<Call>, i: nat)
    requires i < |calls|
    ensures WellNested(calls[..i + 1]) <==> WellNested(calls[..i]) && Nests(Play(calls[..i]), calls[i])
    ensures WellNested(calls) ==> Nests(Play(calls[..i]), calls[i])
  {
    hide Play, Nests;
    assert forall k | 0 <= k <= i :: calls[..i + 1][..k] == calls[..k] && (k < i ==> calls[..i][..k] == calls[..k]);
    assert calls[..i + 1][i] == calls[i];
  }

  lemma {:induction false} DirectoryLength(entries: seq<CentralEntry>, written: seq<Entry>)
    requires |entries| == |written| && forall i | 0 <= i < |entries| :: entries[i].name == written[i].name
    ensures |Directory(entries)| == DirectorySize(written)
    decreases |entries|
  {
    hide CentralRecord;
    if entries != [] {
      var n := |entries| - 1;
      DirectoryLength(entries[..n], written[..n]);
      DirectorySnoc(entries[..n], entries[n]);
      assert entries[..n] + [entries[n]] == entries;
    }
  }

  /** A finished archive: the local records of the entries tile it up to the directory, which describes them in order. */
  ghost predicate LaidOut(b: seq<Byte>, entries: seq<CentralEntry>, start: nat, done: seq<Entry>) {
    start <= |b| && DescribesAll(b[..start], entries, done) && Tiles(entries, start) && Holds(b, start, Directory(entries))
  }

  /** The stream has followed the calls. */
  ghost predicate Follows(zip: ZipStream, calls: seq<Call>)
    reads zip
  {
    && zip.clean && zip.written == Play(calls).done && zip.offset == Put(calls) && |zip.entries| == |zip.written|
    && Play(calls).current == (if zip.open.Some? then Some(Entry(zip.open.value.name, zip.pending)) else None)
    && WellNested(calls) && NamesFit(Play(calls))
  }

  /** One call, as the export makes it; what the caller forwards is returned. */
  method Apply(zip: ZipStream, call: Call) returns (r: Result<seq<Byte>, ZipError>)
    requires zip.Valid() && zip.clean && |zip.entries| == |zip.written|
    modifies zip
    ensures zip.Valid()
    ensures r.Ok? ==>
      && zip.clean && zip.out == old(zip.out) + r.value && |zip.entries| == |zip.written| && zip.offset == old(zip.offset) + Cost(call)
      && var s := Script(old(zip.written), if old(zip.open).Some? then Some(Entry(old(zip.open).value.name, old(zip.pending))) else None);
      && Nests(s, call) && (call.Begin? || call.Whole? ==> |NameBytes(call.raw)| <= MAX_NAME)
      && Played(s, call) == Script(zip.written, if zip.open.Some? then Some(Entry(zip.open.value.name, zip.pending)) else None)
    ensures r.Err? ==>
      || ((call.Begin? || call.Whole?) != old(zip.open).None?)
      || ((call.Begin? || call.Whole?) && (old(|zip.entries|) >= MAX_ENTRIES || |NameBytes(call.raw)| > MAX_NAME))
      || old(zip.offset) + Cost(call) > ZIP32_MAX
  {
    hide NameBytes, Describes, Tiles, Holds, Descriptor, LocalHeader;
    ValidFacts(zip);
    match call {
      case Begin(raw) =>
        r := zip.BeginEntry(raw);
      case Data(data) =>
        var ok := zip.EntryData(data);
        Reasons(ok);
        r := if ok.Ok? then Ok(data) else Err(ok.error);
      case End =>
        r := zip.EndEntry();
      case Whole(raw, data) =>
        r := zip.WholeEntry(raw, data);
    }
    Reasons(r);
    if r.Ok? {
      ValidFacts(zip);
    }
  }

  lemma Reasons<T>(r: Result<T, ZipError>)
    ensures r.Ok? || r == Err(Overflow) || r == Err(EntryOpen) || r == Err(NoEntry)
  {
    if r.Err? {
      match r.error
      case Overflow =>
      case EntryOpen =>
      case NoEntry =>
    }
  }

  /**
    * Every run of calls, followed by a finish, succeeds exactly when zip32 can hold it. Reading the
    * forwarded bytes back then gives the entries of the run, each with its normalised name and all its chunks.
    */
  method WriteArchive(calls: seq<Call>) returns (r: Result<seq<Byte>, ZipError>)
    ensures r.Ok? <==> Writable(calls)
    ensures r.Ok? ==> ReadArchive(r.value) == Some(Play(calls).done)
    ensures r.Ok? ==> exists entries, start :: LaidOut(r.value, entries, start, Play(calls).done)
  {
    hide ReadArchive, NameBytes, Directory, ZipStream.Valid, Play, Put, WellNested, NamesFit, DirectorySize, LaidOut, Cost;
    var zip := new ZipStream();
    var bytes: seq<Byte> := [];
    StartFollowing(zip, calls);
    for i := 0 to |calls|
      invariant zip.Valid() && zip.out == bytes && fresh(zip) && Follows(zip, calls[..i])
    {
      PlayNext(calls, i);
      NestedSoFar(calls, i);
      var chunk := Apply(zip, calls[i]);
      if chunk.Err? {
        if Writable(calls) {
          CannotFail(calls, i);
        }
        return chunk;
      }
      StepFits(Play(calls[..i]), calls[i]);
      bytes := bytes + chunk.value;
    }
    assert calls[..|calls|] == calls;
    ValidFacts(zip);
    DirectoryLength(zip.entries, zip.written);
    var tail := zip.Finish();
    Reasons(tail);
    if tail.Err? { return tail; }
    FinishedLayout(zip, tail.value);
    return Ok(bytes + tail.value);
  }

  lemma StartFollowing(zip: ZipStream, calls: seq<Call>)
    requires zip.clean && zip.written == [] && zip.entries == [] && zip.open == None && zip.out == [] && zip.Valid()
    ensures Follows(zip, calls[..0])
  {
    assert calls[..0] == [];
  }

  lemma StepFits(s: Script, call: Call)
    requires NamesFit(s) && Nests(s, call) && (call.Begin? || call.Whole? ==> |NameBytes(call.raw)| <= MAX_NAME)
    ensures NamesFit(Played(s, call))
  {
    hide NameBytes;
  }

  /** What a valid clean stream knows of its records. */
  lemma ValidFacts(zip: ZipStream)
    requires zip.Valid() && zip.clean
    ensures |zip.out| == zip.offset && |zip.entries| == |zip.written| <= MAX_ENTRIES
    ensures forall i | 0 <= i < |zip.entries| :: zip.entries[i].name == zip.written[i].name
    ensures zip.open.Some? ==> zip.open.value.size == |zip.pending| && zip.open.value.size <= zip.offset && zip.open.value.offset <= ZIP32_MAX && zip.open.value.size <= ZIP32_MAX
  {
    hide Tiles, Holds, LocalHeader, Descriptor;
    forall i | 0 <= i < |zip.entries|
      ensures zip.entries[i].name == zip.written[i].name
    {
      assert Describes(zip.out, zip.entries[i], zip.written[i]);
    }
  }

  /** In a writable run no call meets a reason to fail. */
  lemma CannotFail(calls: seq<Call>, i: nat)
    requires Writable(calls) && i < |calls|
    ensures var s, call := Play(calls[..i]), calls[i];
            && Nests(s, call) && Put(calls[..i]) + Cost(call) <= ZIP32_MAX
            && (call.Begin? || call.Whole? ==> |s.done| < MAX_ENTRIES && |NameBytes(call.raw)| <= MAX_NAME)
  {
    hide Play, Put, Cost, NameBytes, NamesFit, WellNested, Played;
    NestedSoFar(calls, i);
    PlayNext(calls, i);
    PrefixOf(calls, i + 1);
    StepKeeps(Play(calls[..i]), calls[i]);
  }

  lemma FinishedLayout(zip: ZipStream, tail: seq<Byte>)
    requires zip.Valid() && zip.clean && zip.open == None && Holds(zip.out + tail, |zip.out|, Directory(zip.entries))
    ensures LaidOut(zip.out + tail, zip.entries, |zip.out|, zip.written)
  {
    hide Directory, Holds, Describes, Tiles;
    assert (zip.out + tail)[..|zip.out|] == zip.out;
  }
}
