/**
  * The two length-framed hash preimages of retained native history: `target_binding` and
  * `target_content_digest`. Each is shown uniquely decodable by a decoder that gives the input back.
  */
module Framing {
  import opened Options
  import opened Bytes
  import opened Uuids
  import opened Text

  type Frame = seq<Byte>

  // ---------------------------------------------------------------- frames

  /** A length is a 64-bit count of octets. */
  ghost predicate FrameOk(f: Frame) {
    |f| < Pow256(8)
  }

  ghost predicate FramesOk(fs: seq<Frame>) {
    forall i | 0 <= i < |fs| :: FrameOk(fs[i])
  }

  /** `field`: the length as eight little-endian octets, then the octets. */
  function Framed(f: Frame): (s: seq<Byte>)
    ensures |s| == 8 + |f|
  {
    LittleEndian(|f|, 8) + f
  }

  function Stream(fs: seq<Frame>): seq<Byte> {
    if fs == [] then [] else Framed(fs[0]) + Stream(fs[1..])
  }

  lemma {:induction false} StreamConcat(a: seq<Frame>, b: seq<Frame>)
    ensures Stream(a + b) == Stream(a) + Stream(b)
  {
    hide Framed;
    if a == [] {
      Neutral(b);
      Neutral(Stream(b));
    } else {
      StreamConcat(a[1..], b);
      assert (a + b)[1..] == a[1..] + b && (a + b)[0] == a[0];
      Associate(Framed(a[0]), Stream(a[1..]), Stream(b));
    }
  }

  lemma StreamOne(f: Frame)
    ensures Stream([f]) == Framed(f)
  {
    hide Framed;
    assert [f][1..] == [];
    Neutral(Framed(f));
  }

  /** Reads frames until the octets are used up. */
  function Unframe(s: seq<Byte>): Option<seq<Frame>>
    decreases |s|
  {
    if s == [] then Some([])
    else if |s| < 8 then None
    else
      var end := 8 + FromLittleEndian(s[..8]);
      if end > |s| then None
      else
        match Unframe(s[end..])
        case None => None
        case Some(rest) => Some([s[8..end]] + rest)
  }

  lemma {:induction false} UnframeFirst(f: Frame, rest: seq<Byte>)
    requires FrameOk(f)
    ensures Unframe(Framed(f) + rest) == match Unframe(rest) case None => None case Some(fs) => Some([f] + fs)
  {
    var s := Framed(f) + rest;
    LittleEndianRoundTrip(|f|, 8);
    assert s[..8] == LittleEndian(|f|, 8);
    assert s[8..8 + |f|] == f && s[8 + |f|..] == rest;
  }

  /** Length frames leave no field-boundary ambiguity. */
  lemma {:induction false} UnframeOfStream(fs: seq<Frame>)
    requires FramesOk(fs)
    ensures Unframe(Stream(fs)) == Some(fs)
  {
    hide Framed;
    if fs != [] {
      assert FrameOk(fs[0]);
      UnframeOfStream(fs[1..]);
      UnframeFirst(fs[0], Stream(fs[1..]));
      assert fs == [fs[0]] + fs[1..];
    }
  }

  // ---------------------------------------------------------------- values

  ghost predicate InI16(n: int) {
    -0x8000 <= n < 0x8000
  }

  ghost predicate InI64(n: int) {
    -0x8000_0000_0000_0000 <= n < 0x8000_0000_0000_0000
  }

  function UuidFrame(u: Uuid): (f: Frame)
    ensures |f| == 16
  {
    BigEndian(u, 16)
  }

  function DecodeUuid(f: Frame): (r: Option<Uuid>)
  {
    Widths();
    if |f| == 16 then Some(FromBigEndian(f)) else None
  }

  lemma UuidRoundTrip(u: Uuid)
    ensures DecodeUuid(UuidFrame(u)) == Some(u)
  {
    Widths();
    BigEndianRoundTrip(u, 16);
  }

  /** Two's complement in `k` octets; a value outside the width is truncated. */
  function IntFrame(n: int, k: nat): (f: Frame)
    ensures |f| == k
  {
    LittleEndian(if n < 0 then (n % Pow256(k)) else n, k)
  }

  function DecodeInt(f: Frame, k: nat): Option<int> {
    if |f| == k then Some(Signed(FromLittleEndian(f), k)) else None
  }

  lemma {:induction false} IntRoundTrip(n: int, k: nat)
    requires -(Pow256(k) as int) <= 2 * n < Pow256(k)
    ensures DecodeInt(IntFrame(n, k), k) == Some(n)
  {
    var u := if n < 0 then n + Pow256(k) else n;
    assert n < 0 ==> n % Pow256(k) == u by {
      if n < 0 {
        ModOfNegative(n, Pow256(k));
      }
    }
    LittleEndianRoundTrip(u, k);
  }

  lemma ModOfNegative(n: int, p: nat)
    requires p > 0 && -(p as int) <= n < 0
    ensures n % p == n + p || n == -(p as int)
  {
    if n != -(p as int) {
      assert n == (-1) * p + (n + p);
    }
  }

  lemma I64RoundTrip(n: int)
    requires InI64(n)
    ensures DecodeInt(IntFrame(n, 8), 8) == Some(n)
  {
    Widths();
    IntRoundTrip(n, 8);
  }

  lemma I16RoundTrip(n: int)
    requires InI16(n)
    ensures DecodeInt(IntFrame(n, 2), 2) == Some(n)
  {
    Widths();
    IntRoundTrip(n, 2);
  }

  // ---------------------------------------------------------------- rows of frames

  /** How a row becomes a fixed number of frames, and back. */
  datatype Codec<!T(!new)> = Codec(width: nat, encode: T -> seq<Frame>, decode: seq<Frame> -> Option<T>)

  ghost predicate Lawful<T(!new)>(c: Codec<T>, x: T) {
    |c.encode(x)| == c.width && c.decode(c.encode(x)) == Some(x)
  }

  function Rows<T(!new)>(c: Codec<T>, xs: seq<T>): seq<Frame> {
    if xs == [] then [] else c.encode(xs[0]) + Rows(c, xs[1..])
  }

  /** `n` rows from the front, and the frames after them. */
  function TakeRows<T(!new)>(c: Codec<T>, fs: seq<Frame>, n: nat): Option<(seq<T>, seq<Frame>)>
    decreases n
  {
    if n == 0 then Some(([], fs))
    else if |fs| < c.width then None
    else
      match c.decode(fs[..c.width])
      case None => None
      case Some(x) =>
        match TakeRows(c, fs[c.width..], n - 1)
        case None => None
        case Some((xs, rest)) => Some(([x] + xs, rest))
  }

  lemma {:induction false} TakeRowsOfRows<T(!new)>(c: Codec<T>, xs: seq<T>, rest: seq<Frame>)
    requires forall i | 0 <= i < |xs| :: Lawful(c, xs[i])
    ensures TakeRows(c, Rows(c, xs) + rest, |xs|) == Some((xs, rest))
    decreases |xs|
  {
    if xs == [] {
      Neutral(rest);
    } else {
      assert Lawful(c, xs[0]);
      var first, more := c.encode(xs[0]), Rows(c, xs[1..]);
      Associate(first, more, rest);
      var fs := first + (more + rest);
      assert fs[..c.width] == first && fs[c.width..] == more + rest;
      TakeRowsOfRows(c, xs[1..], rest);
      assert xs == [xs[0]] + xs[1..];
    }
  }

  /** A counted list: the number of rows as a frame of its own, then the rows. */
  function List<T(!new)>(c: Codec<T>, xs: seq<T>): seq<Frame> {
    [LittleEndian(|xs|, 8)] + Rows(c, xs)
  }

  function TakeList<T(!new)>(c: Codec<T>, fs: seq<Frame>): Option<(seq<T>, seq<Frame>)> {
    if fs == [] || |fs[0]| != 8 then None else TakeRows(c, fs[1..], FromLittleEndian(fs[0]))
  }

  lemma TakeListOfList<T(!new)>(c: Codec<T>, xs: seq<T>, rest: seq<Frame>)
    requires |xs| < Pow256(8) && forall i | 0 <= i < |xs| :: Lawful(c, xs[i])
    ensures TakeList(c, List(c, xs) + rest) == Some((xs, rest))
  {
    hide TakeRows, Rows, Lawful, LittleEndian, FromLittleEndian;
    LittleEndianRoundTrip(|xs|, 8);
    var fs := List(c, xs) + rest;
    assert fs[0] == LittleEndian(|xs|, 8) && fs[1..] == Rows(c, xs) + rest;
    TakeRowsOfRows(c, xs, rest);
  }

  // ---------------------------------------------------------------- captured history

  datatype TailRow = TailRow(seqNo: int, op: Uuid, payload: Frame)

  datatype Snapshot = Snapshot(id: Uuid, encoding: int, octets: Frame)

  function TailFrames(r: TailRow): seq<Frame> {
    [IntFrame(r.seqNo, 8), UuidFrame(r.op), r.payload]
  }

  function DecodeTail(fs: seq<Frame>): Option<TailRow> {
    if |fs| != 3 then None
    else
      match (DecodeInt(fs[0], 8), DecodeUuid(fs[1]))
      case (Some(n), Some(op)) => Some(TailRow(n, op, fs[2]))
      case _ => None
  }

  function TailCodec(): Codec<TailRow> {
    Codec(3, TailFrames, DecodeTail)
  }

  ghost predicate TailOk(r: TailRow) {
    InI64(r.seqNo) && FrameOk(r.payload)
  }

  lemma TailLawful(r: TailRow)
    requires TailOk(r)
    ensures Lawful(TailCodec(), r) && FramesOk(TailFrames(r))
  {
    Widths();
    I64RoundTrip(r.seqNo);
    UuidRoundTrip(r.op);
  }

  function SnapshotFrames(r: Snapshot): seq<Frame> {
    [UuidFrame(r.id), IntFrame(r.encoding, 2), r.octets]
  }

  function DecodeSnapshot(fs: seq<Frame>): Option<Snapshot> {
    if |fs| != 3 then None
    else
      match (DecodeUuid(fs[0]), DecodeInt(fs[1], 2))
      case (Some(id), Some(n)) => Some(Snapshot(id, n, fs[2]))
      case _ => None
  }

  function SnapshotCodec(): Codec<Snapshot> {
    Codec(3, SnapshotFrames, DecodeSnapshot)
  }

  ghost predicate SnapshotOk(r: Snapshot) {
    InI16(r.encoding) && FrameOk(r.octets)
  }

  lemma SnapshotLawful(r: Snapshot)
    requires SnapshotOk(r)
    ensures Lawful(SnapshotCodec(), r) && FramesOk(SnapshotFrames(r))
  {
    Widths();
    UuidRoundTrip(r.id);
    I16RoundTrip(r.encoding);
  }

  // ---------------------------------------------------------------- target_binding

  /** The capture an inventory report is bound to; the stored body and revision JSON are not part of it. */
  datatype Binding = Binding(workspace: Uuid, actor: Uuid, capturedAt: Frame, kind: Frame, id: Uuid, encoding: int,
                             cutoff: int, tailSeq: int, snapshot: Frame, tail: seq<TailRow>, revisions: seq<Snapshot>)

  ghost predicate BindingOk(b: Binding) {
    && FrameOk(b.capturedAt) && FrameOk(b.kind) && FrameOk(b.snapshot)
    && InI16(b.encoding) && InI64(b.cutoff) && InI64(b.tailSeq)
    && (forall i | 0 <= i < |b.tail| :: TailOk(b.tail[i]))
    && (forall i | 0 <= i < |b.revisions| :: SnapshotOk(b.revisions[i]))
  }

  /** `fvoci-native-archive-inventory-v1` in ASCII. */
  const BINDING_LABEL: Frame :=
    [0x66, 0x76, 0x6f, 0x63, 0x69, 0x2d, 0x6e, 0x61, 0x74, 0x69, 0x76, 0x65, 0x2d, 0x61, 0x72, 0x63, 0x68, 0x69, 0x76,
     0x65, 0x2d, 0x69, 0x6e, 0x76, 0x65, 0x6e, 0x74, 0x6f, 0x72, 0x79, 0x2d, 0x76, 0x31]

  function BindingHead(b: Binding): seq<Frame> {
    [BINDING_LABEL, UuidFrame(b.workspace), UuidFrame(b.actor), b.capturedAt, b.kind, UuidFrame(b.id),
     IntFrame(b.encoding, 2), IntFrame(b.cutoff, 8), IntFrame(b.tailSeq, 8), b.snapshot]
  }

  /** The lists carry no counts: what separates them is that a tail row starts with 8 octets and a revision with 16. */
  function BindingFrames(b: Binding): seq<Frame> {
    BindingHead(b) + (Rows(TailCodec(), b.tail) + Rows(SnapshotCodec(), b.revisions))
  }

  /** Tail rows while the next frame is 8 octets long, then revisions to the end. */
  function TakeTail(fs: seq<Frame>): Option<(seq<TailRow>, seq<Frame>)> {
    if |fs| < 3 || |fs[0]| != 8 then Some(([], fs))
    else
      match DecodeTail(fs[..3])
      case None => None
      case Some(r) =>
        match TakeTail(fs[3..])
        case None => None
        case Some((rs, rest)) => Some(([r] + rs, rest))
  }

  function DecodeBinding(fs: seq<Frame>): Option<Binding> {
    if |fs| < 10 || fs[0] != BINDING_LABEL then None
    else
      match (DecodeUuid(fs[1]), DecodeUuid(fs[2]), DecodeUuid(fs[5]), DecodeInt(fs[6], 2), DecodeInt(fs[7], 8), DecodeInt(fs[8], 8))
      case (Some(w), Some(a), Some(id), Some(e), Some(c), Some(t)) =>
        (match TakeTail(fs[10..])
         case None => None
         case Some((tail, rest)) =>
           match TakeRows(SnapshotCodec(), rest, |rest| / 3)
           case None => None
           case Some((revisions, left)) =>
             if left != [] then None else Some(Binding(w, a, fs[3], fs[4], id, e, c, t, fs[9], tail, revisions)))
      case _ => None
  }

  lemma {:induction false} TakeTailOfRows(tail: seq<TailRow>, rest: seq<Frame>)
    requires forall i | 0 <= i < |tail| :: TailOk(tail[i])
    requires |rest| < 3 || |rest[0]| != 8
    ensures TakeTail(Rows(TailCodec(), tail) + rest) == Some((tail, rest))
    decreases |tail|
  {
    hide DecodeTail, DecodeInt, DecodeUuid, IntFrame, UuidFrame;
    if tail == [] {
      Neutral(rest);
    } else {
      TailLawful(tail[0]);
      var first, more := TailFrames(tail[0]), Rows(TailCodec(), tail[1..]);
      Associate(first, more, rest);
      var fs := first + (more + rest);
      assert fs[..3] == first && fs[3..] == more + rest;
      TakeTailOfRows(tail[1..], rest);
      assert tail == [tail[0]] + tail[1..];
    }
  }

  lemma {:induction false} RowsLength<T(!new)>(c: Codec<T>, xs: seq<T>)
    requires forall i | 0 <= i < |xs| :: |c.encode(xs[i])| == 3
    ensures |Rows(c, xs)| == 3 * |xs|
  {
    if xs != [] {
      assert |c.encode(xs[0])| == 3;
      RowsLength(c, xs[1..]);
    }
  }

  lemma {:induction false} RevisionsStart(revisions: seq<Snapshot>)
    ensures var fs := Rows(SnapshotCodec(), revisions);
            |fs| == 3 * |revisions| && (|fs| < 3 || |fs[0]| != 8)
  {
    hide IntFrame, UuidFrame;
    RowsLength(SnapshotCodec(), revisions);
    if revisions != [] {
      assert Rows(SnapshotCodec(), revisions)[0] == UuidFrame(revisions[0].id);
    }
  }

  lemma ListsAreSeparated(b: Binding)
    requires BindingOk(b)
    ensures var fs := Rows(TailCodec(), b.tail) + Rows(SnapshotCodec(), b.revisions);
            && TakeTail(fs) == Some((b.tail, Rows(SnapshotCodec(), b.revisions)))
            && |Rows(SnapshotCodec(), b.revisions)| == 3 * |b.revisions|
            && TakeRows(SnapshotCodec(), Rows(SnapshotCodec(), b.revisions), |b.revisions|) == Some((b.revisions, []))
  {
    hide TakeTail, TakeRows, Rows, Lawful;
    var revisions := Rows(SnapshotCodec(), b.revisions);
    RevisionsStart(b.revisions);
    TakeTailOfRows(b.tail, revisions);
    forall i | 0 <= i < |b.revisions|
      ensures Lawful(SnapshotCodec(), b.revisions[i])
    {
      SnapshotLawful(b.revisions[i]);
    }
    TakeRowsOfRows(SnapshotCodec(), b.revisions, []);
    Neutral(revisions);
  }

  /** The frames of a capture decode to that capture. */
  lemma DecodeBindingOfFrames(b: Binding)
    requires BindingOk(b)
    ensures DecodeBinding(BindingFrames(b)) == Some(b)
  {
    hide TakeTail, TakeRows, Rows, DecodeUuid, DecodeInt, UuidFrame, IntFrame;
    var head, lists := BindingHead(b), Rows(TailCodec(), b.tail) + Rows(SnapshotCodec(), b.revisions);
    var fs := head + lists;
    assert fs[10..] == lists && forall i | 0 <= i < 10 :: fs[i] == head[i];
    UuidRoundTrip(b.workspace);
    UuidRoundTrip(b.actor);
    UuidRoundTrip(b.id);
    I16RoundTrip(b.encoding);
    I64RoundTrip(b.cutoff);
    I64RoundTrip(b.tailSeq);
    ListsAreSeparated(b);
  }

  lemma FramesOkConcat(a: seq<Frame>, b: seq<Frame>)
    requires FramesOk(a) && FramesOk(b)
    ensures FramesOk(a + b)
  {
  }

  lemma {:induction false} RowsOk<T(!new)>(c: Codec<T>, xs: seq<T>)
    requires forall i | 0 <= i < |xs| :: FramesOk(c.encode(xs[i]))
    ensures FramesOk(Rows(c, xs))
  {
    hide FramesOk;
    if xs == [] {
      NoFrames();
    } else {
      assert FramesOk(c.encode(xs[0]));
      RowsOk(c, xs[1..]);
      FramesOkConcat(c.encode(xs[0]), Rows(c, xs[1..]));
    }
  }

  lemma NoFrames()
    ensures FramesOk([])
  {
  }

  lemma BindingFramesOk(b: Binding)
    requires BindingOk(b)
    ensures FramesOk(BindingFrames(b))
  {
    hide Rows, UuidFrame, IntFrame, FrameOk;
    var tail, revisions := Rows(TailCodec(), b.tail), Rows(SnapshotCodec(), b.revisions);
    forall i | 0 <= i < |b.tail|
      ensures FramesOk(TailCodec().encode(b.tail[i]))
    {
      TailLawful(b.tail[i]);
    }
    RowsOk(TailCodec(), b.tail);
    forall i | 0 <= i < |b.revisions|
      ensures FramesOk(SnapshotCodec().encode(b.revisions[i]))
    {
      SnapshotLawful(b.revisions[i]);
    }
    RowsOk(SnapshotCodec(), b.revisions);
    FramesOkConcat(tail, revisions);
    BindingHeadOk(b);
    FramesOkConcat(BindingHead(b), tail + revisions);
  }

  lemma ShortFrame(f: Frame)
    requires |f| <= 64
    ensures FrameOk(f)
  {
    Widths();
  }

  lemma BindingHeadOk(b: Binding)
    requires FrameOk(b.capturedAt) && FrameOk(b.kind) && FrameOk(b.snapshot)
    ensures FramesOk(BindingHead(b))
  {
    hide UuidFrame, IntFrame, FrameOk;
    var head := BindingHead(b);
    ShortFrame(head[0]);
    ShortFrame(head[1]);
    ShortFrame(head[2]);
    ShortFrame(head[5]);
    ShortFrame(head[6]);
    ShortFrame(head[7]);
    ShortFrame(head[8]);
  }

  /** The octets hashed for the capture binding determine the capture. */
  lemma BindingIsDecodable(b: Binding)
    requires BindingOk(b)
    ensures Unframe(Stream(BindingFrames(b))) == Some(BindingFrames(b))
    ensures DecodeBinding(BindingFrames(b)) == Some(b)
  {
    BindingFramesOk(b);
    UnframeOfStream(BindingFrames(b));
    DecodeBindingOfFrames(b);
  }

  lemma BindingInjective(a: Binding, b: Binding)
    requires BindingOk(a) && BindingOk(b) && Stream(BindingFrames(a)) == Stream(BindingFrames(b))
    ensures a == b
  {
    hide BindingFrames, DecodeBinding, Unframe, Stream;
    BindingIsDecodable(a);
    BindingIsDecodable(b);
  }

  // ---------------------------------------------------------------- target_content_digest

  datatype Receipt = Receipt(op: Uuid, seqNo: int, length: int, sha: Frame, actor: Uuid)

  function ReceiptFrames(r: Receipt): seq<Frame> {
    [UuidFrame(r.op), IntFrame(r.seqNo, 8), IntFrame(r.length, 8), r.sha, UuidFrame(r.actor)]
  }

  function DecodeReceipt(fs: seq<Frame>): Option<Receipt> {
    if |fs| != 5 then None
    else
      match (DecodeUuid(fs[0]), DecodeInt(fs[1], 8), DecodeInt(fs[2], 8), DecodeUuid(fs[4]))
      case (Some(op), Some(n), Some(len), Some(actor)) => Some(Receipt(op, n, len, fs[3], actor))
      case _ => None
  }

  function ReceiptCodec(): Codec<Receipt> {
    Codec(5, ReceiptFrames, DecodeReceipt)
  }

  ghost predicate ReceiptOk(r: Receipt) {
    InI64(r.seqNo) && InI64(r.length) && FrameOk(r.sha)
  }

  lemma ReceiptLawful(r: Receipt)
    requires ReceiptOk(r)
    ensures Lawful(ReceiptCodec(), r) && FramesOk(ReceiptFrames(r))
  {
    hide UuidFrame, IntFrame, DecodeUuid, DecodeInt, FrameOk;
    UuidRoundTrip(r.op);
    UuidRoundTrip(r.actor);
    I64RoundTrip(r.seqNo);
    I64RoundTrip(r.length);
    ShortFrame(UuidFrame(r.op));
    ShortFrame(UuidFrame(r.actor));
    ShortFrame(IntFrame(r.seqNo, 8));
    ShortFrame(IntFrame(r.length, 8));
  }

  /** A stored revision with the octets of its serialised JSON. */
  datatype Stored = Stored(id: Uuid, encoding: int, octets: Frame, json: Frame)

  function StoredFrames(r: Stored): seq<Frame> {
    [UuidFrame(r.id), IntFrame(r.encoding, 2), r.octets, r.json]
  }

  function DecodeStored(fs: seq<Frame>): Option<Stored> {
    if |fs| != 4 then None
    else
      match (DecodeUuid(fs[0]), DecodeInt(fs[1], 2))
      case (Some(id), Some(n)) => Some(Stored(id, n, fs[2], fs[3]))
      case _ => None
  }

  function StoredCodec(): Codec<Stored> {
    Codec(4, StoredFrames, DecodeStored)
  }

  ghost predicate StoredOk(r: Stored) {
    InI16(r.encoding) && FrameOk(r.octets) && FrameOk(r.json)
  }

  lemma StoredLawful(r: Stored)
    requires StoredOk(r)
    ensures Lawful(StoredCodec(), r) && FramesOk(StoredFrames(r))
  {
    hide UuidFrame, IntFrame, DecodeUuid, DecodeInt, FrameOk;
    UuidRoundTrip(r.id);
    I16RoundTrip(r.encoding);
    ShortFrame(UuidFrame(r.id));
    ShortFrame(IntFrame(r.encoding, 2));
  }

  /** An absent author is an empty frame; a present one is never empty. */
  function AuthorFrame(u: Option<Uuid>): Frame {
    match u
    case None => []
    case Some(id) => UuidFrame(id)
  }

  function DecodeAuthor(f: Frame): Option<Option<Uuid>> {
    if f == [] then Some(None)
    else
      match DecodeUuid(f)
      case None => None
      case Some(id) => Some(Some(id))
  }

  /** Presence-marked values: a leading 1 and the value, or a lone 0. */
  function MarkedUuid(u: Option<Uuid>): Frame {
    match u
    case None => [0]
    case Some(id) => [1] + UuidFrame(id)
  }

  function DecodeMarkedUuid(f: Frame): Option<Option<Uuid>> {
    if f == [0] then Some(None)
    else if f != [] && f[0] == 1 then
      match DecodeUuid(f[1..])
      case None => None
      case Some(id) => Some(Some(id))
    else None
  }

  function MarkedInt(n: Option<int>): Frame {
    match n
    case None => [0]
    case Some(v) => [1] + IntFrame(v, 8)
  }

  function DecodeMarkedInt(f: Frame): Option<Option<int>> {
    if f == [0] then Some(None)
    else if f != [] && f[0] == 1 then
      match DecodeInt(f[1..], 8)
      case None => None
      case Some(v) => Some(Some(v))
    else None
  }

  lemma MarkedRoundTrip(u: Option<Uuid>, n: Option<int>)
    requires n.Some? ==> InI64(n.value)
    ensures DecodeMarkedUuid(MarkedUuid(u)) == Some(u) && |MarkedUuid(u)| <= 17
    ensures DecodeMarkedInt(MarkedInt(n)) == Some(n) && |MarkedInt(n)| <= 9
    ensures DecodeAuthor(AuthorFrame(u)) == Some(u) && |AuthorFrame(u)| <= 16
  {
    hide UuidFrame, IntFrame, DecodeUuid, DecodeInt;
    if u.Some? {
      UuidRoundTrip(u.value);
      assert MarkedUuid(u)[1..] == UuidFrame(u.value) && MarkedUuid(u)[0] == 1;
      assert |UuidFrame(u.value)| == 16;
    }
    if n.Some? {
      I64RoundTrip(n.value);
      assert MarkedInt(n)[1..] == IntFrame(n.value, 8) && MarkedInt(n)[0] == 1;
    }
  }

  datatype Meta = Meta(reason: Frame, createdBy: Option<Uuid>, createdAt: Frame, text: Frame, restoredFrom: Option<Uuid>,
                       correlation: Option<Uuid>, baseTail: Option<int>, committedTail: Option<int>)

  function MetaFrames(m: Meta): seq<Frame> {
    [m.reason, AuthorFrame(m.createdBy), m.createdAt, m.text,
     MarkedUuid(m.restoredFrom), MarkedUuid(m.correlation), MarkedInt(m.baseTail), MarkedInt(m.committedTail)]
  }

  function DecodeMeta(fs: seq<Frame>): Option<Meta> {
    if |fs| != 8 then None
    else
      match (DecodeAuthor(fs[1]), DecodeMarkedUuid(fs[4]), DecodeMarkedUuid(fs[5]), DecodeMarkedInt(fs[6]), DecodeMarkedInt(fs[7]))
      case (Some(author), Some(source), Some(c), Some(base), Some(done)) => Some(Meta(fs[0], author, fs[2], fs[3], source, c, base, done))
      case _ => None
  }

  function MetaCodec(): Codec<Meta> {
    Codec(8, MetaFrames, DecodeMeta)
  }

  ghost predicate MetaOk(m: Meta) {
    && FrameOk(m.reason) && FrameOk(m.createdAt) && FrameOk(m.text)
    && (m.baseTail.Some? ==> InI64(m.baseTail.value)) && (m.committedTail.Some? ==> InI64(m.committedTail.value))
  }

  lemma MetaLawful(m: Meta)
    requires MetaOk(m)
    ensures Lawful(MetaCodec(), m) && FramesOk(MetaFrames(m))
  {
    hide AuthorFrame, MarkedUuid, MarkedInt, DecodeAuthor, DecodeMarkedUuid, DecodeMarkedInt, FrameOk;
    MarkedRoundTrip(m.createdBy, None);
    MarkedRoundTrip(m.restoredFrom, m.baseTail);
    MarkedRoundTrip(m.correlation, m.committedTail);
    ShortFrame(AuthorFrame(m.createdBy));
    ShortFrame(MarkedUuid(m.restoredFrom));
    ShortFrame(MarkedUuid(m.correlation));
    ShortFrame(MarkedInt(m.baseTail));
    ShortFrame(MarkedInt(m.committedTail));
  }

  /** Everything the stable content digest covers. */
  datatype Content = Content(kind: Frame, id: Uuid, body: Frame, encoding: int, cutoff: int, tailSeq: int, snapshot: Frame,
                             tail: seq<TailRow>, receipts: seq<Receipt>, revisions: seq<Stored>, metas: seq<Meta>)

  ghost predicate ContentOk(x: Content) {
    && FrameOk(x.kind) && FrameOk(x.body) && FrameOk(x.snapshot)
    && InI16(x.encoding) && InI64(x.cutoff) && InI64(x.tailSeq)
    && |x.tail| < Pow256(8) && |x.receipts| < Pow256(8) && |x.revisions| < Pow256(8) && |x.metas| < Pow256(8)
    && (forall i | 0 <= i < |x.tail| :: TailOk(x.tail[i]))
    && (forall i | 0 <= i < |x.receipts| :: ReceiptOk(x.receipts[i]))
    && (forall i | 0 <= i < |x.revisions| :: StoredOk(x.revisions[i]))
    && (forall i | 0 <= i < |x.metas| :: MetaOk(x.metas[i]))
  }

  /** `fvoci-native-history-content-v2` in ASCII. */
  const CONTENT_LABEL: Frame :=
    [0x66, 0x76, 0x6f, 0x63, 0x69, 0x2d, 0x6e, 0x61, 0x74, 0x69, 0x76, 0x65, 0x2d, 0x68, 0x69, 0x73, 0x74, 0x6f, 0x72,
     0x79, 0x2d, 0x63, 0x6f, 0x6e, 0x74, 0x65, 0x6e, 0x74, 0x2d, 0x76, 0x32]

  function ContentHead(x: Content): seq<Frame> {
    [CONTENT_LABEL, x.kind, UuidFrame(x.id), x.body, IntFrame(x.encoding, 2), IntFrame(x.cutoff, 8), IntFrame(x.tailSeq, 8), x.snapshot]
  }

  function ContentFrames(x: Content): seq<Frame> {
    ContentHead(x) + (List(TailCodec(), x.tail) + (List(ReceiptCodec(), x.receipts)
    + (List(StoredCodec(), x.revisions) + (List(MetaCodec(), x.metas) + []))))
  }

  /** The four counted lists of a content stream. */
  datatype Lists = Lists(tail: seq<TailRow>, receipts: seq<Receipt>, revisions: seq<Stored>, metas: seq<Meta>)

  function DecodeLists(fs: seq<Frame>): Option<Lists> {
    match TakeList(TailCodec(), fs)
    case None => None
    case Some((tail, fs1)) =>
      match TakeList(ReceiptCodec(), fs1)
      case None => None
      case Some((receipts, fs2)) =>
        match TakeList(StoredCodec(), fs2)
        case None => None
        case Some((revisions, fs3)) =>
          match TakeList(MetaCodec(), fs3)
          case None => None
          case Some((metas, fs4)) => if fs4 == [] then Some(Lists(tail, receipts, revisions, metas)) else None
  }

  function DecodeContent(fs: seq<Frame>): Option<Content> {
    if |fs| < 8 || fs[0] != CONTENT_LABEL then None
    else
      match (DecodeUuid(fs[2]), DecodeInt(fs[4], 2), DecodeInt(fs[5], 8), DecodeInt(fs[6], 8), DecodeLists(fs[8..]))
      case (Some(id), Some(e), Some(c), Some(t), Some(l)) =>
        Some(Content(fs[1], id, fs[3], e, c, t, fs[7], l.tail, l.receipts, l.revisions, l.metas))
      case _ => None
  }

  lemma DecodeListsOfLists(x: Content)
    requires ContentOk(x)
    ensures DecodeLists(List(TailCodec(), x.tail) + (List(ReceiptCodec(), x.receipts)
                        + (List(StoredCodec(), x.revisions) + (List(MetaCodec(), x.metas) + []))))
         == Some(Lists(x.tail, x.receipts, x.revisions, x.metas))
  {
    hide TakeList, List, Lawful, TailOk, ReceiptOk, StoredOk, MetaOk, TailFrames, ReceiptFrames, StoredFrames, MetaFrames;
    forall i | 0 <= i < |x.tail| ensures Lawful(TailCodec(), x.tail[i]) { TailLawful(x.tail[i]); }
    forall i | 0 <= i < |x.receipts| ensures Lawful(ReceiptCodec(), x.receipts[i]) { ReceiptLawful(x.receipts[i]); }
    forall i | 0 <= i < |x.revisions| ensures Lawful(StoredCodec(), x.revisions[i]) { StoredLawful(x.revisions[i]); }
    forall i | 0 <= i < |x.metas| ensures Lawful(MetaCodec(), x.metas[i]) { MetaLawful(x.metas[i]); }
    var fs4: seq<Frame> := [];
    var fs3 := List(MetaCodec(), x.metas) + fs4;
    var fs2 := List(StoredCodec(), x.revisions) + fs3;
    var fs1 := List(ReceiptCodec(), x.receipts) + fs2;
    TakeListOfList(MetaCodec(), x.metas, fs4);
    TakeListOfList(StoredCodec(), x.revisions, fs3);
    TakeListOfList(ReceiptCodec(), x.receipts, fs2);
    TakeListOfList(TailCodec(), x.tail, fs1);
  }

  lemma DecodeContentOfFrames(x: Content)
    requires ContentOk(x)
    ensures DecodeContent(ContentFrames(x)) == Some(x)
  {
    hide DecodeLists, List, DecodeUuid, DecodeInt, UuidFrame, IntFrame, TailOk, ReceiptOk, StoredOk, MetaOk;
    var head := ContentHead(x);
    var lists := List(TailCodec(), x.tail) + (List(ReceiptCodec(), x.receipts)
                 + (List(StoredCodec(), x.revisions) + (List(MetaCodec(), x.metas) + [])));
    var fs := head + lists;
    assert fs[8..] == lists && forall i | 0 <= i < 8 :: fs[i] == head[i];
    UuidRoundTrip(x.id);
    I16RoundTrip(x.encoding);
    I64RoundTrip(x.cutoff);
    I64RoundTrip(x.tailSeq);
    DecodeListsOfLists(x);
  }

  lemma ListOk<T(!new)>(c: Codec<T>, xs: seq<T>)
    requires forall i | 0 <= i < |xs| :: FramesOk(c.encode(xs[i]))
    ensures FramesOk(List(c, xs))
  {
    hide FrameOk, Rows, LittleEndian;
    RowsOk(c, xs);
    ShortFrame(LittleEndian(|xs|, 8));
    FramesOkConcat([LittleEndian(|xs|, 8)], Rows(c, xs));
  }

  lemma ContentHeadOk(x: Content)
    requires FrameOk(x.kind) && FrameOk(x.body) && FrameOk(x.snapshot)
    ensures FramesOk(ContentHead(x))
  {
    hide UuidFrame, IntFrame, FrameOk;
    var head := ContentHead(x);
    ShortFrame(head[0]);
    ShortFrame(head[2]);
    ShortFrame(head[4]);
    ShortFrame(head[5]);
    ShortFrame(head[6]);
  }

  lemma ContentFramesOk(x: Content)
    requires ContentOk(x)
    ensures FramesOk(ContentFrames(x))
  {
    hide List, FramesOk, TailOk, ReceiptOk, StoredOk, MetaOk, TailFrames, ReceiptFrames, StoredFrames, MetaFrames;
    forall i | 0 <= i < |x.tail| ensures FramesOk(TailCodec().encode(x.tail[i])) { TailLawful(x.tail[i]); }
    forall i | 0 <= i < |x.receipts| ensures FramesOk(ReceiptCodec().encode(x.receipts[i])) { ReceiptLawful(x.receipts[i]); }
    forall i | 0 <= i < |x.revisions| ensures FramesOk(StoredCodec().encode(x.revisions[i])) { StoredLawful(x.revisions[i]); }
    forall i | 0 <= i < |x.metas| ensures FramesOk(MetaCodec().encode(x.metas[i])) { MetaLawful(x.metas[i]); }
    ListOk(TailCodec(), x.tail);
    ListOk(ReceiptCodec(), x.receipts);
    ListOk(StoredCodec(), x.revisions);
    ListOk(MetaCodec(), x.metas);
    NoFrames();
    var fs3 := List(MetaCodec(), x.metas) + [];
    FramesOkConcat(List(MetaCodec(), x.metas), []);
    FramesOkConcat(List(StoredCodec(), x.revisions), fs3);
    var fs2 := List(StoredCodec(), x.revisions) + fs3;
    FramesOkConcat(List(ReceiptCodec(), x.receipts), fs2);
    var fs1 := List(ReceiptCodec(), x.receipts) + fs2;
    FramesOkConcat(List(TailCodec(), x.tail), fs1);
    ContentHeadOk(x);
    FramesOkConcat(ContentHead(x), List(TailCodec(), x.tail) + fs1);
  }

  /** The octets hashed for the content digest determine everything the digest covers. */
  lemma ContentIsDecodable(x: Content)
    requires ContentOk(x)
    ensures Unframe(Stream(ContentFrames(x))) == Some(ContentFrames(x))
    ensures DecodeContent(ContentFrames(x)) == Some(x)
  {
    hide ContentFrames, DecodeContent;
    ContentFramesOk(x);
    UnframeOfStream(ContentFrames(x));
    DecodeContentOfFrames(x);
  }

  /** A target and its revisions with JSON values, before serialisation. */
  datatype Captured<V> = Captured(content: Content, body: V, revisionBodies: seq<V>)

  /** The content record of a capture under a JSON serialiser. */
  ghost predicate Serialises<V(!new)>(json: V -> Frame, c: Captured<V>) {
    && c.content.body == json(c.body)
    && |c.revisionBodies| == |c.content.revisions|
    && forall i | 0 <= i < |c.revisionBodies| :: c.content.revisions[i].json == json(c.revisionBodies[i])
  }

  /** With an injective serialiser equal preimages mean equal captures, JSON values included. */
  lemma ContentInjective<V(!new)>(json: V -> Frame, a: Captured<V>, b: Captured<V>)
    requires forall v, w | json(v) == json(w) :: v == w
    requires Serialises(json, a) && Serialises(json, b) && ContentOk(a.content) && ContentOk(b.content)
    requires Stream(ContentFrames(a.content)) == Stream(ContentFrames(b.content))
    ensures a == b
  {
    hide ContentFrames, DecodeContent, Unframe, Stream, ContentOk;
    ContentIsDecodable(a.content);
    ContentIsDecodable(b.content);
    assert a.content == b.content;
    assert a.revisionBodies == b.revisionBodies;
  }

  /** A capture binding is never the preimage of a content digest. */
  lemma PreimagesAreSeparate(b: Binding, x: Content)
    requires BindingOk(b) && ContentOk(x)
    ensures Stream(BindingFrames(b)) != Stream(ContentFrames(x))
  {
    hide DecodeContent, DecodeBinding, Unframe, Stream, ContentOk, BindingOk, Rows, List;
    BindingIsDecodable(b);
    ContentIsDecodable(x);
    assert BindingFrames(b)[0] == BINDING_LABEL;
    assert ContentFrames(x)[0] == CONTENT_LABEL;
    assert |BINDING_LABEL| != |CONTENT_LABEL|;
  }

  // ---------------------------------------------------------------- feeding the hasher

  lemma NothingFed()
    ensures Stream([]) == []
  {
  }

  /** A running hash, as the octets it has been fed. */
  class Hasher {
    var fed: seq<Byte>

    constructor ()
      ensures fed == []
    {
      fed := [];
    }

    method Field(f: Frame)
      modifies this
      ensures fed == old(fed) + Framed(f)
    {
      fed := fed + LittleEndian(|f|, 8);
      fed := fed + f;
      Associate(old(fed), LittleEndian(|f|, 8), f);
    }

    /** Feeds frames one after the other. */
    method Fields(fs: seq<Frame>)
      modifies this
      ensures fed == old(fed) + Stream(fs)
    {
      hide Stream, Framed;
      NothingFed();
      Neutral(fed);
      assert fs[..0] == [];
      for i := 0 to |fs|
        invariant fed == old(fed) + Stream(fs[..i])
      {
        StreamSnoc(fs[..i], fs[i]);
        assert fs[..i + 1] == fs[..i] + [fs[i]];
        Associate(old(fed), Stream(fs[..i]), Framed(fs[i]));
        Field(fs[i]);
      }
      assert fs[..|fs|] == fs;
    }
  }

  lemma {:induction false} StreamSnoc(fs: seq<Frame>, f: Frame)
    ensures Stream(fs + [f]) == Stream(fs) + Framed(f)
  {
    hide Framed;
    StreamConcat(fs, [f]);
    StreamOne(f);
  }

  lemma {:induction false} RowsSnoc<T(!new)>(c: Codec<T>, xs: seq<T>, x: T)
    ensures Rows(c, xs + [x]) == Rows(c, xs) + c.encode(x)
  {
    if xs == [] {
      assert [x][1..] == [] && xs + [x] == [x];
      Neutral(c.encode(x));
    } else {
      RowsSnoc(c, xs[1..], x);
      assert (xs + [x])[1..] == xs[1..] + [x];
      Associate(c.encode(xs[0]), Rows(c, xs[1..]), c.encode(x));
    }
  }

  lemma {:induction false} NoRows<T(!new)>(c: Codec<T>)
    ensures Stream(Rows(c, [])) == []
  {
  }

  /** Row after row, field after field. */
  method FeedRows<T(!new)>(h: Hasher, c: Codec<T>, xs: seq<T>)
    modifies h
    ensures h.fed == old(h.fed) + Stream(Rows(c, xs))
  {
    hide Stream, Rows;
    Neutral(h.fed);
    NoRows(c);
    assert xs[..0] == [];
    for i := 0 to |xs|
      invariant h.fed == old(h.fed) + Stream(Rows(c, xs[..i]))
    {
      RowsSnoc(c, xs[..i], xs[i]);
      assert xs[..i + 1] == xs[..i] + [xs[i]];
      StreamConcat(Rows(c, xs[..i]), c.encode(xs[i]));
      Associate(old(h.fed), Stream(Rows(c, xs[..i])), Stream(c.encode(xs[i])));
      h.Fields(c.encode(xs[i]));
    }
    assert xs[..|xs|] == xs;
  }

  method FeedList<T(!new)>(h: Hasher, c: Codec<T>, xs: seq<T>)
    modifies h
    ensures h.fed == old(h.fed) + Stream(List(c, xs))
  {
    h.Field(LittleEndian(|xs|, 8));
    FeedRows(h, c, xs);
    StreamConcat([LittleEndian(|xs|, 8)], Rows(c, xs));
    StreamOne(LittleEndian(|xs|, 8));
    Associate(old(h.fed), Framed(LittleEndian(|xs|, 8)), Stream(Rows(c, xs)));
  }

  /** `target_binding` up to the final hash: the preimage is the stream of the binding's frames. */
  method FeedBinding(b: Binding) returns (preimage: seq<Byte>)
    ensures preimage == Stream(BindingFrames(b))
  {
    hide Stream, Rows, BindingHead;
    var h := new Hasher();
    h.Fields(BindingHead(b));
    FeedRows(h, TailCodec(), b.tail);
    FeedRows(h, SnapshotCodec(), b.revisions);
    var head, tail, revisions := Stream(BindingHead(b)), Stream(Rows(TailCodec(), b.tail)), Stream(Rows(SnapshotCodec(), b.revisions));
    Neutral(head);
    StreamConcat(Rows(TailCodec(), b.tail), Rows(SnapshotCodec(), b.revisions));
    StreamConcat(BindingHead(b), Rows(TailCodec(), b.tail) + Rows(SnapshotCodec(), b.revisions));
    Associate(head, tail, revisions);
    preimage := h.fed;
  }

  /** `target_content_digest` up to the final hash. */
  method FeedContent(x: Content) returns (preimage: seq<Byte>)
    ensures preimage == Stream(ContentFrames(x))
  {
    hide Stream, List, ContentHead;
    var h := new Hasher();
    h.Fields(ContentHead(x));
    FeedList(h, TailCodec(), x.tail);
    FeedList(h, ReceiptCodec(), x.receipts);
    FeedList(h, StoredCodec(), x.revisions);
    FeedList(h, MetaCodec(), x.metas);
    preimage := h.fed;
    FiveStreams(ContentHead(x), List(TailCodec(), x.tail), List(ReceiptCodec(), x.receipts), List(StoredCodec(), x.revisions), List(MetaCodec(), x.metas));
    Neutral(Stream(ContentHead(x)));
  }

  lemma {:induction false} FiveStreams(a: seq<Frame>, b: seq<Frame>, c: seq<Frame>, d: seq<Frame>, e: seq<Frame>)
    ensures Stream(a) + Stream(b) + Stream(c) + Stream(d) + Stream(e) == Stream(a + (b + (c + (d + (e + [])))))
  {
    hide Stream;
    Neutral(e);
    StreamConcat(d, e);
    StreamConcat(c, d + e);
    StreamConcat(b, c + (d + e));
    StreamConcat(a, b + (c + (d + e)));
    Regroup(Stream(a), Stream(b), Stream(c), Stream(d), Stream(e));
  }

  lemma Regroup(a: seq<Byte>, b: seq<Byte>, c: seq<Byte>, d: seq<Byte>, e: seq<Byte>)
    ensures a + b + c + d + e == a + (b + (c + (d + e)))
  {
  }
}
