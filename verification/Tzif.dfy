/** The binary time-zone reader of the calendar feed, against the layout of sections 3.1 and 3.2 of RFC 8536. */
module Tzif {
  import opened Options
  import opened Bytes

  // ---------------------------------------------------------------- the reader

  datatype Counts = Counts(isut: nat, isstd: nat, leap: nat, time: nat, typ: nat, chars: nat)

  const MAGIC: seq<Byte> := [0x54, 0x5A, 0x69, 0x66]
  const U64 := 0x1_0000_0000_0000_0000

  function U32At(b: seq<Byte>, at: nat): (n: nat)
    requires at + 4 <= |b|
    ensures n < 0x1_0000_0000
  {
    Widths();
    FromBigEndian(b[at..at + 4])
  }

  /** The six counts of a header, in file order; `None` when they are cut off. */
  function CountsAt(b: seq<Byte>, at: nat): (r: Option<Counts>)
    ensures r.Some? <==> |b| >= at + 24
    ensures r.Some? ==> var c := r.value;
              && c.isut < 0x1_0000_0000 && c.isstd < 0x1_0000_0000 && c.leap < 0x1_0000_0000
              && c.time < 0x1_0000_0000 && c.typ < 0x1_0000_0000 && c.chars < 0x1_0000_0000
  {
    if |b| < at + 24 then None
    else Some(Counts(U32At(b, at), U32At(b, at + 4), U32At(b, at + 8), U32At(b, at + 12), U32At(b, at + 16), U32At(b, at + 20)))
  }

  /** Where the reader finds its data: 64- or 32-bit times, the counts, and three offsets. */
  datatype Layout = Layout(wide: bool, counts: Counts, timesAt: nat, typesAt: nat, infosAt: nat)

  function Width(wide: bool): nat {
    if wide then 8 else 4
  }

  /** `i` times of the given width. */
  function Span(wide: bool, i: nat): nat {
    if wide then i * 8 else i * 4
  }

  function SkipOf(c: Counts): nat {
    44 + c.time * 5 + c.typ * 6 + c.chars + c.leap * 8 + c.isut + c.isstd
  }

  /** The header offset: a version 2 file has a second header after its first data block. */
  function HeaderOf(b: seq<Byte>): (r: Option<(bool, nat)>)
    ensures r.Some? ==> r.value.1 < 44 + 22 * 0x1_0000_0000
  {
    if |b| < 44 || b[0..4] != MAGIC then None
    else if b[4] >= 0x32 then
      var skip := SkipOf(CountsAt(b, 20).value);
      if |b| < skip + 44 || b[skip..skip + 4] != MAGIC then None else Some((true, skip + 20))
    else Some((false, 20))
  }

  function LayoutAt(b: seq<Byte>, wide: bool, at: nat): (r: Option<Layout>)
    ensures r.Some? ==> Inside(b, r.value)
    ensures r.Some? && at < 44 + 22 * 0x1_0000_0000 ==> r.value.infosAt + r.value.counts.typ * 6 < U64
  {
    match CountsAt(b, at)
    case None => None
    case Some(c) => LayoutWith(b, wide, at + 24, c)
  }

  function LayoutWith(b: seq<Byte>, wide: bool, timesAt: nat, c: Counts): (r: Option<Layout>)
    ensures r.Some? ==> Inside(b, r.value)
  {
    var typesAt := timesAt + Span(wide, c.time);
    var infosAt := typesAt + c.time;
    if |b| < infosAt + c.typ * 6 then None else Some(Layout(wide, c, timesAt, typesAt, infosAt))
  }

  /** The sections follow each other and lie inside the file. */
  predicate Inside(b: seq<Byte>, l: Layout) {
    && l.typesAt == l.timesAt + Span(l.wide, l.counts.time)
    && l.infosAt == l.typesAt + l.counts.time
    && l.infosAt + l.counts.typ * 6 <= |b|
  }

  /** Every size fits a 64-bit `usize`, and a returned layout lies inside the file. */
  function LayoutOf(b: seq<Byte>): (r: Option<Layout>)
    ensures r.Some? ==> Inside(b, r.value) && r.value.infosAt + r.value.counts.typ * 6 < U64
  {
    match HeaderOf(b)
    case None => None
    case Some((wide, at)) => LayoutAt(b, wide, at)
  }

  function SignedAt(b: seq<Byte>, at: nat, size: nat): int
    requires at + size <= |b|
  {
    Signed(FromBigEndian(b[at..at + size]), size)
  }

  function TimeAt(b: seq<Byte>, l: Layout, i: nat): int
    requires Inside(b, l) && i < l.counts.time
  {
    SignedAt(b, l.timesAt + Span(l.wide, i), Width(l.wide))
  }

  /** How many transitions from the front are at or before the instant. */
  function Passed(b: seq<Byte>, l: Layout, unix: int, i: nat): (n: nat)
    requires Inside(b, l) && i <= l.counts.time
    ensures i <= n <= l.counts.time
    decreases l.counts.time - i
  {
    if i < l.counts.time && TimeAt(b, l, i) <= unix then Passed(b, l, unix, i + 1) else i
  }

  function Chosen(b: seq<Byte>, l: Layout, unix: int): nat
    requires Inside(b, l)
  {
    TypeBefore(b, l, Passed(b, l, unix, 0))
  }

  /** The type in force after `n` transitions: type 0 before the first. */
  function TypeBefore(b: seq<Byte>, l: Layout, n: nat): nat
    requires Inside(b, l) && n <= l.counts.time
  {
    if n == 0 then 0 else b[l.typesAt + n - 1]
  }

  function InfoAt(b: seq<Byte>, l: Layout, typ: nat): int
    requires Inside(b, l) && typ < l.counts.typ
  {
    SignedAt(b, l.infosAt + typ * 6, Width(false))
  }

  /** The offset a located data block gives for an instant. */
  function OffsetIn(b: seq<Byte>, l: Layout, unix: int): Option<int>
    requires Inside(b, l)
  {
    var typ := Chosen(b, l, unix);
    if typ >= l.counts.typ then None else Some(InfoAt(b, l, typ))
  }

  /** The UTC offset a file gives for an instant. */
  function OffsetAt(b: seq<Byte>, unix: int): Option<int> {
    match LayoutOf(b)
    case None => None
    case Some(l) => OffsetIn(b, l, unix)
  }

  /** The reader; every index is inside the file for every input. */
  method ParseTzifOffset(b: seq<Byte>, unix: int) returns (r: Option<int>)
    ensures r == OffsetAt(b, unix)
  {
    var layout := LayoutOf(b);
    if layout.None? {
      return None;
    }
    r := FindOffset(b, layout.value, unix);
  }

  /** The loop over the transitions. */
  method FindOffset(b: seq<Byte>, l: Layout, unix: int) returns (r: Option<int>)
    requires Inside(b, l)
    ensures r == OffsetIn(b, l, unix)
  {
    var chosen: nat := 0;
    var i := 0;
    while i < l.counts.time
      invariant 0 <= i <= l.counts.time
      invariant chosen == TypeBefore(b, l, i)
      invariant Passed(b, l, unix, 0) == Passed(b, l, unix, i)
    {
      var t := TimeAt(b, l, i);
      if t <= unix {
        chosen := b[l.typesAt + i];
      } else {
        break;
      }
      i := i + 1;
    }
    if chosen >= l.counts.typ {
      return None;
    }
    return Some(InfoAt(b, l, chosen));
  }

  // ---------------------------------------------------------------- files

  datatype Info = Info(offset: int, isDst: Byte, designation: Byte)

  /** One data block: transitions, local time types, and the sections the reader skips. */
  datatype Block = Block(times: seq<int>, types: seq<Byte>, infos: seq<Info>,
                         chars: seq<Byte>, leaps: seq<Byte>, leapCount: nat, std: seq<Byte>, ut: seq<Byte>)

  ghost predicate FitsSigned(n: int, size: nat) {
    -(Pow256(size) as int) <= 2 * n < Pow256(size)
  }

  ghost predicate BlockOk(k: Block, wide: bool) {
    && |k.types| == |k.times|
    && AllFit(k.times, wide)
    && InfosFit(k.infos)
    && |k.leaps| == (if wide then k.leapCount * 12 else k.leapCount * 8)
    && |k.times| < 0x1_0000_0000 && |k.infos| < 0x1_0000_0000 && |k.chars| < 0x1_0000_0000
    && k.leapCount < 0x1_0000_0000 && |k.std| < 0x1_0000_0000 && |k.ut| < 0x1_0000_0000
  }

  ghost predicate AllFit(times: seq<int>, wide: bool) {
    forall i | 0 <= i < |times| :: FitsSigned(times[i], Width(wide))
  }

  ghost predicate InfosFit(infos: seq<Info>) {
    forall i | 0 <= i < |infos| :: FitsSigned(infos[i].offset, Width(false))
  }

  ghost function EncodeTime(t: int, wide: bool): (s: seq<Byte>)
    requires FitsSigned(t, Width(wide))
    ensures |s| == Width(wide)
  {
    BigEndian(Unsigned(t, Width(wide)), Width(wide))
  }

  ghost function EncodeTimes(times: seq<int>, wide: bool): (s: seq<Byte>)
    requires AllFit(times, wide)
    ensures |s| == Span(wide, |times|)
  {
    if times == [] then []
    else
      assert FitsSigned(times[0], Width(wide));
      EncodeTime(times[0], wide) + EncodeTimes(times[1..], wide)
  }

  ghost function EncodeInfo(x: Info): (s: seq<Byte>)
    requires FitsSigned(x.offset, Width(false))
    ensures |s| == 6
  {
    EncodeTime(x.offset, false) + [x.isDst, x.designation]
  }

  ghost function EncodeInfos(infos: seq<Info>): (s: seq<Byte>)
    requires InfosFit(infos)
    ensures |s| == |infos| * 6
  {
    if infos == [] then [] else assert FitsSigned(infos[0].offset, Width(false)); EncodeInfo(infos[0]) + EncodeInfos(infos[1..])
  }

  ghost function EncodeWord(n: nat): (s: seq<Byte>)
    ensures |s| == 4
  {
    BigEndian(n, Width(false))
  }

  ghost function EncodeCounts(k: Block): (s: seq<Byte>)
    ensures |s| == 24
  {
    EncodeWord(|k.ut|) + EncodeWord(|k.std|) + EncodeWord(k.leapCount)
    + EncodeWord(|k.times|) + EncodeWord(|k.infos|) + EncodeWord(|k.chars|)
  }

  ghost function EncodeHeader(k: Block, version: Byte, reserved: seq<Byte>): (s: seq<Byte>)
    requires |reserved| == 15
    ensures |s| == 44
  {
    MAGIC + [version] + reserved + EncodeCounts(k)
  }

  ghost function EncodeData(k: Block, wide: bool): (s: seq<Byte>)
    requires BlockOk(k, wide)
    ensures |s| == Span(wide, |k.times|) + |k.times| + |k.infos| * 6 + |Skipped(k)|
  {
    EncodeTimes(k.times, wide) + k.types + EncodeInfos(k.infos) + Skipped(k)
  }

  /** Designations, leap seconds and the two indicator lists. */
  ghost function Skipped(k: Block): (s: seq<Byte>)
    ensures |s| == |k.chars| + |k.leaps| + |k.std| + |k.ut|
  {
    k.chars + k.leaps + k.std + k.ut
  }

  /** Version 1 has one block with 32-bit times; later versions repeat header and data with 64-bit times. */
  datatype File =
    | Version1(version: Byte, reserved: seq<Byte>, block: Block)
    | Version2(version: Byte, reserved: seq<Byte>, first: Block, block: Block, footer: seq<Byte>)

  ghost predicate FileOk(f: File) {
    && |f.reserved| == 15
    && match f
       case Version1(v, _, k) => v < 0x32 && BlockOk(k, false)
       case Version2(v, _, first, k, _) => v >= 0x32 && BlockOk(first, false) && BlockOk(k, true)
  }

  ghost function Encode(f: File): seq<Byte>
    requires FileOk(f)
  {
    match f
    case Version1(v, r, k) => EncodeHeader(k, v, r) + EncodeData(k, false)
    case Version2(v, r, first, k, footer) =>
      EncodeHeader(first, v, r) + EncodeData(first, false) + (EncodeHeader(k, v, r) + EncodeData(k, true) + footer)
  }

  ghost predicate Ascending(times: seq<int>) {
    forall i, j | 0 <= i < j < |times| :: times[i] < times[j]
  }

  /** `n` transitions are at or before the instant: all of the first `n` and none of the rest. */
  ghost predicate LastBefore(times: seq<int>, unix: int, n: nat) {
    && n <= |times|
    && (forall i | 0 <= i < n :: times[i] <= unix)
    && (forall i | n <= i < |times| :: times[i] > unix)
  }

  /** The type in force after `n` transitions: type 0 before the first. */
  ghost function TypeAfter(k: Block, n: nat): nat
    requires n <= |k.types|
  {
    if n == 0 then 0 else k.types[n - 1]
  }

  ghost function OffsetOfType(k: Block, typ: nat): Option<int> {
    if typ < |k.infos| then Some(k.infos[typ].offset) else None
  }

  // ---------------------------------------------------------------- reading an encoded file

  lemma Word(b: seq<Byte>, at: nat, n: nat)
    requires n < 0x1_0000_0000 && Holds(b, at, EncodeWord(n))
    ensures U32At(b, at) == n
  {
    Widths();
    BigEndianRoundTrip(n, Width(false));
  }

  lemma CountWords(k: Block)
    ensures var s := EncodeCounts(k);
            && Holds(s, 0, EncodeWord(|k.ut|)) && Holds(s, 4, EncodeWord(|k.std|)) && Holds(s, 8, EncodeWord(k.leapCount))
            && Holds(s, 12, EncodeWord(|k.times|)) && Holds(s, 16, EncodeWord(|k.infos|)) && Holds(s, 20, EncodeWord(|k.chars|))
  {
    SixWords(EncodeWord(|k.ut|), EncodeWord(|k.std|), EncodeWord(k.leapCount),
             EncodeWord(|k.times|), EncodeWord(|k.infos|), EncodeWord(|k.chars|));
  }

  lemma SixWords(a: seq<Byte>, b: seq<Byte>, c: seq<Byte>, d: seq<Byte>, e: seq<Byte>, f: seq<Byte>)
    requires |a| == |b| == |c| == |d| == |e| == |f| == 4
    ensures var s := a + b + c + d + e + f;
            Holds(s, 0, a) && Holds(s, 4, b) && Holds(s, 8, c) && Holds(s, 12, d) && Holds(s, 16, e) && Holds(s, 20, f)
  {
  }

  ghost function CountsOf(k: Block): Counts {
    Counts(|k.ut|, |k.std|, k.leapCount, |k.times|, |k.infos|, |k.chars|)
  }

  lemma CountsRead(b: seq<Byte>, at: nat, k: Block, wide: bool)
    requires BlockOk(k, wide) && Holds(b, at, EncodeCounts(k))
    ensures CountsAt(b, at) == Some(CountsOf(k))
  {
    CountWords(k);
    var s := EncodeCounts(k);
    HoldsTrans(b, at, s, 0, EncodeWord(|k.ut|));
    HoldsTrans(b, at, s, 4, EncodeWord(|k.std|));
    HoldsTrans(b, at, s, 8, EncodeWord(k.leapCount));
    HoldsTrans(b, at, s, 12, EncodeWord(|k.times|));
    HoldsTrans(b, at, s, 16, EncodeWord(|k.infos|));
    HoldsTrans(b, at, s, 20, EncodeWord(|k.chars|));
    Word(b, at, |k.ut|);
    Word(b, at + 4, |k.std|);
    Word(b, at + 8, k.leapCount);
    Word(b, at + 12, |k.times|);
    Word(b, at + 16, |k.infos|);
    Word(b, at + 20, |k.chars|);
  }

  lemma HeaderParts(k: Block, version: Byte, reserved: seq<Byte>)
    requires |reserved| == 15
    ensures var h := EncodeHeader(k, version, reserved);
            h[0..4] == MAGIC && h[4] == version && h[20..44] == EncodeCounts(k)
  {
  }

  /** A header with these counts starts at `at`. */
  ghost predicate IsHeader(b: seq<Byte>, at: nat, version: Byte, c: Counts) {
    && at + 44 <= |b| && b[at..at + 4] == MAGIC && b[at + 4] == version
    && CountsAt(b, at + 20) == Some(c)
  }

  lemma HeaderRead(b: seq<Byte>, at: nat, k: Block, wide: bool, version: Byte, reserved: seq<Byte>)
    requires |reserved| == 15 && BlockOk(k, wide) && Holds(b, at, EncodeHeader(k, version, reserved))
    ensures IsHeader(b, at, version, CountsOf(k))
  {
    var h := EncodeHeader(k, version, reserved);
    HeaderParts(k, version, reserved);
    HoldsPart(b, at, h, 0, 4);
    HoldsPart(b, at, h, 20, 44);
    assert b[at..at + 44][4] == b[at + 4];
    CountsRead(b, at + 20, k, wide);
  }

  /** The layout points at the sections of the block. */
  ghost predicate Located(b: seq<Byte>, k: Block, wide: bool, l: Layout) {
    && BlockOk(k, wide) && Inside(b, l)
    && l.wide == wide && l.counts == CountsOf(k)
    && Holds(b, l.timesAt, EncodeTimes(k.times, wide))
    && Holds(b, l.typesAt, k.types)
    && Holds(b, l.infosAt, EncodeInfos(k.infos))
  }

  lemma {:induction false} SectionsRead(b: seq<Byte>, at: nat, k: Block, wide: bool)
    requires BlockOk(k, wide) && Holds(b, at, EncodeData(k, wide))
    ensures var n := Span(wide, |k.times|);
            && at + n + |k.times| + |k.infos| * 6 <= |b|
            && Holds(b, at, EncodeTimes(k.times, wide)) && Holds(b, at + n, k.types)
            && Holds(b, at + n + |k.times|, EncodeInfos(k.infos))
  {
    SectionsIn(b, at, EncodeTimes(k.times, wide), k.types, EncodeInfos(k.infos), Skipped(k));
  }

  lemma SectionsIn(b: seq<Byte>, at: nat, t: seq<Byte>, y: seq<Byte>, i: seq<Byte>, rest: seq<Byte>)
    requires Holds(b, at, t + y + i + rest)
    ensures Holds(b, at, t) && Holds(b, at + |t|, y) && Holds(b, at + |t| + |y|, i)
  {
    var d := t + y + i + rest;
    Sections(t, y, i, rest);
    HoldsTrans(b, at, d, 0, t);
    HoldsTrans(b, at, d, |t|, y);
    HoldsTrans(b, at, d, |t| + |y|, i);
  }

  lemma LayoutRead(b: seq<Byte>, at: nat, k: Block, wide: bool) returns (l: Layout)
    requires BlockOk(k, wide) && Holds(b, at, EncodeData(k, wide))
    ensures LayoutWith(b, wide, at, CountsOf(k)) == Some(l) && Located(b, k, wide, l)
  {
    hide EncodeData, EncodeTimes, EncodeInfos;
    SectionsRead(b, at, k, wide);
    l := LayoutWith(b, wide, at, CountsOf(k)).value;
  }

  lemma OneHeader(b: seq<Byte>, v: Byte, c: Counts, l: Layout)
    requires IsHeader(b, 0, v, c) && v < 0x32 && LayoutWith(b, false, 44, c) == Some(l)
    ensures LayoutOf(b) == Some(l)
  {
  }

  /** The reader skips the first header and data block to find the second header. */
  lemma TwoHeaders(b: seq<Byte>, v: Byte, first: Counts, second: Counts, l: Layout)
    requires IsHeader(b, 0, v, first) && v >= 0x32 && IsHeader(b, SkipOf(first), v, second)
    requires LayoutWith(b, true, SkipOf(first) + 44, second) == Some(l)
    ensures LayoutOf(b) == Some(l)
  {
    assert HeaderOf(b) == Some((true, SkipOf(first) + 20));
  }

  lemma FileRead(f: File) returns (l: Layout)
    requires FileOk(f)
    ensures LayoutOf(Encode(f)) == Some(l) && Located(Encode(f), f.block, f.Version2?, l)
  {
    match f
    case Version1(v, r, k) =>
      l := OneBlockRead(Encode(f), v, r, k);
    case Version2(v, r, first, k, footer) =>
      var h1, d1, h2, d2 := EncodeHeader(first, v, r), EncodeData(first, false), EncodeHeader(k, v, r), EncodeData(k, true);
      TwoBlocks(h1, d1, h2, d2, footer);
      l := SecondBlockRead(Encode(f), v, r, first, k);
  }

  lemma OneBlockRead(b: seq<Byte>, v: Byte, r: seq<Byte>, k: Block) returns (l: Layout)
    requires |r| == 15 && v < 0x32 && BlockOk(k, false) && b == EncodeHeader(k, v, r) + EncodeData(k, false)
    ensures LayoutOf(b) == Some(l) && Located(b, k, false, l)
  {
    HoldsStart(EncodeHeader(k, v, r), EncodeData(k, false));
    HoldsEnd(EncodeHeader(k, v, r), EncodeData(k, false));
    HeaderRead(b, 0, k, false, v, r);
    l := LayoutRead(b, 44, k, false);
    OneHeader(b, v, CountsOf(k), l);
  }

  lemma SkipIsFirstBlock(first: Block)
    requires BlockOk(first, false)
    ensures SkipOf(CountsOf(first)) == 44 + |EncodeData(first, false)|
  {
  }

  lemma SecondBlockRead(b: seq<Byte>, v: Byte, r: seq<Byte>, first: Block, k: Block) returns (l: Layout)
    requires |r| == 15 && v >= 0x32 && BlockOk(first, false) && BlockOk(k, true)
    requires var n := |EncodeData(first, false)|;
             && Holds(b, 0, EncodeHeader(first, v, r)) && Holds(b, 44 + n, EncodeHeader(k, v, r))
             && Holds(b, 44 + n + 44, EncodeData(k, true))
    ensures LayoutOf(b) == Some(l) && Located(b, k, true, l)
  {
    hide EncodeData, EncodeHeader, LayoutOf, Located, BlockOk, Holds, SkipOf, CountsOf;
    var skip := SkipOf(CountsOf(first));
    SkipIsFirstBlock(first);
    HeaderRead(b, 0, first, false, v, r);
    HeaderRead(b, skip, k, true, v, r);
    l := LayoutRead(b, skip + 44, k, true);
    TwoHeaders(b, v, CountsOf(first), CountsOf(k), l);
  }

  lemma TwoBlocks(h1: seq<Byte>, d1: seq<Byte>, h2: seq<Byte>, d2: seq<Byte>, footer: seq<Byte>)
    ensures var b := h1 + d1 + (h2 + d2 + footer);
            && Holds(b, 0, h1) && Holds(b, |h1| + |d1|, h2) && Holds(b, |h1| + |d1| + |h2|, d2)
  {
    var b := h1 + d1 + (h2 + d2 + footer);
    assert b == h1 + (d1 + (h2 + d2 + footer));
    HoldsStart(h1, d1 + (h2 + d2 + footer));
    assert b == (h1 + d1) + h2 + (d2 + footer);
    HoldsMiddle(h1 + d1, h2, d2 + footer);
    assert b == (h1 + d1 + h2) + d2 + footer;
    HoldsMiddle(h1 + d1 + h2, d2, footer);
  }

  lemma Sections(t: seq<Byte>, y: seq<Byte>, i: seq<Byte>, rest: seq<Byte>)
    ensures var d := t + y + i + rest; Holds(d, 0, t) && Holds(d, |t|, y) && Holds(d, |t| + |y|, i)
  {
    var d := t + y + i + rest;
    assert d == t + (y + i + rest);
    HoldsStart(t, y + i + rest);
    assert d == t + y + (i + rest);
    HoldsMiddle(t, y, i + rest);
    HoldsMiddle(t + y, i, rest);
  }

  lemma {:induction false} TimesAt(times: seq<int>, wide: bool, i: nat)
    requires AllFit(times, wide) && i < |times|
    ensures FitsSigned(times[i], Width(wide)) && Holds(EncodeTimes(times, wide), Span(wide, i), EncodeTime(times[i], wide))
    decreases i
  {
    hide EncodeTime, FitsSigned, Holds, Span;
    assert FitsSigned(times[i], Width(wide)) && FitsSigned(times[0], Width(wide));
    var head, tail := EncodeTime(times[0], wide), EncodeTimes(times[1..], wide);
    assert EncodeTimes(times, wide) == head + tail;
    if i == 0 {
      SpanStart(wide);
      HoldsStart(head, tail);
    } else {
      TimesAt(times[1..], wide, i - 1);
      HoldsEnd(head, tail);
      HoldsTrans(head + tail, |head|, tail, Span(wide, i - 1), EncodeTime(times[i], wide));
      SpanStep(wide, i);
    }
  }

  lemma SpanStart(wide: bool)
    ensures Span(wide, 0) == 0
  {
  }

  lemma SpanStep(wide: bool, i: nat)
    requires i > 0
    ensures Span(wide, i) == Width(wide) + Span(wide, i - 1)
  {
  }

  lemma {:induction false} InfosAt(infos: seq<Info>, i: nat)
    requires InfosFit(infos) && i < |infos|
    ensures FitsSigned(infos[i].offset, Width(false)) && Holds(EncodeInfos(infos), i * 6, EncodeTime(infos[i].offset, false))
    decreases i
  {
    assert FitsSigned(infos[i].offset, Width(false));
    var head, tail, word := EncodeInfo(infos[0]), EncodeInfos(infos[1..]), EncodeTime(infos[i].offset, false);
    if i == 0 {
      HoldsStart(word, [infos[0].isDst, infos[0].designation]);
      HoldsStart(head, tail);
      HoldsTrans(head + tail, 0, head, 0, word);
    } else {
      InfosAt(infos[1..], i - 1);
      HoldsEnd(head, tail);
      HoldsTrans(head + tail, |head|, tail, (i - 1) * 6, word);
    }
  }

  lemma SignedRead(b: seq<Byte>, at: nat, wide: bool, n: int)
    requires FitsSigned(n, Width(wide)) && Holds(b, at, EncodeTime(n, wide))
    ensures SignedAt(b, at, Width(wide)) == n
  {
    BigEndianRoundTrip(Unsigned(n, Width(wide)), Width(wide));
  }

  lemma {:induction false} TimeRead(b: seq<Byte>, times: seq<int>, wide: bool, l: Layout, i: nat)
    requires Inside(b, l) && l.wide == wide && AllFit(times, wide) && i < |times| == l.counts.time
    requires Holds(b, l.timesAt, EncodeTimes(times, wide))
    ensures TimeAt(b, l, i) == times[i]
  {
    hide EncodeTimes, EncodeTime, Holds, FitsSigned;
    TimesAt(times, wide, i);
    HoldsTrans(b, l.timesAt, EncodeTimes(times, wide), Span(wide, i), EncodeTime(times[i], wide));
    SignedRead(b, l.timesAt + Span(wide, i), wide, times[i]);
  }

  lemma {:induction false} InfoRead(b: seq<Byte>, infos: seq<Info>, l: Layout, typ: nat)
    requires Inside(b, l) && InfosFit(infos) && typ < |infos| == l.counts.typ
    requires Holds(b, l.infosAt, EncodeInfos(infos))
    ensures InfoAt(b, l, typ) == infos[typ].offset
  {
    hide EncodeInfos, EncodeTime, InfosFit, FitsSigned, Holds;
    InfosAt(infos, typ);
    HoldsTrans(b, l.infosAt, EncodeInfos(infos), typ * 6, EncodeTime(infos[typ].offset, false));
    SignedRead(b, l.infosAt + typ * 6, false, infos[typ].offset);
  }

  lemma {:induction false} PassedRead(b: seq<Byte>, times: seq<int>, wide: bool, l: Layout, unix: int, n: nat, i: nat)
    requires Inside(b, l) && l.wide == wide && AllFit(times, wide) && |times| == l.counts.time
    requires Holds(b, l.timesAt, EncodeTimes(times, wide))
    requires LastBefore(times, unix, n) && i <= n
    ensures Passed(b, l, unix, i) == n
    decreases n - i
  {
    if i < |times| {
      TimeRead(b, times, wide, l, i);
    }
    if i < n {
      PassedRead(b, times, wide, l, unix, n, i + 1);
    }
  }

  /** With ascending transitions exactly one `n` separates past from future. */
  lemma {:induction false} SomeAreBefore(times: seq<int>, unix: int) returns (n: nat)
    requires Ascending(times)
    ensures LastBefore(times, unix, n)
    ensures forall m: nat | LastBefore(times, unix, m) :: m == n
    decreases |times|
  {
    if times == [] {
      n := 0;
    } else {
      var last := |times| - 1;
      n := SomeAreBefore(times[..last], unix);
      if times[last] <= unix {
        n := last + 1;
      }
      assert LastBefore(times, unix, n);
      forall m: nat | LastBefore(times, unix, m)
        ensures m == n
      {
        SameSplit(times, unix, m, n);
      }
    }
  }

  lemma SameSplit(times: seq<int>, unix: int, m: nat, n: nat)
    requires LastBefore(times, unix, m) && LastBefore(times, unix, n)
    ensures m == n
  {
    assert m < |times| ==> times[m] > unix;
    assert n < |times| ==> times[n] > unix;
  }

  /**
    * For every version 1 or later file with ascending transitions the reader returns the offset of
    * the type of the last transition at or before the instant, or of type 0 before the first; and
    * nothing when the file has no such type.
    */
  lemma EncodedFileIsRead(f: File, unix: int)
    requires FileOk(f) && Ascending(f.block.times)
    ensures exists n: nat :: LastBefore(f.block.times, unix, n) && OffsetAt(Encode(f), unix) == OffsetOfType(f.block, TypeAfter(f.block, n))
  {
    var n := SomeAreBefore(f.block.times, unix);
    var l := FileRead(f);
    BlockIsRead(Encode(f), f.block, f.Version2?, l, unix, n);
  }

  lemma BlockIsRead(b: seq<Byte>, k: Block, wide: bool, l: Layout, unix: int, n: nat)
    requires Located(b, k, wide, l) && LastBefore(k.times, unix, n)
    ensures OffsetIn(b, l, unix) == OffsetOfType(k, TypeAfter(k, n))
  {
    PassedRead(b, k.times, wide, l, unix, n, 0);
    TypeRead(b, k.types, l, n);
    var typ := TypeAfter(k, n);
    if typ < |k.infos| {
      InfoRead(b, k.infos, l, typ);
    }
  }

  lemma TypeRead(b: seq<Byte>, types: seq<Byte>, l: Layout, n: nat)
    requires Inside(b, l) && n <= |types| == l.counts.time && Holds(b, l.typesAt, types)
    ensures TypeBefore(b, l, n) == if n == 0 then 0 else types[n - 1]
  {
    if n > 0 {
      assert b[l.typesAt..l.typesAt + |types|][n - 1] == b[l.typesAt + n - 1];
    }
  }
}
