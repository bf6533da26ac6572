/**
  * Retained native history: `check_canonical_history`, and the archive validator's check of one
  * native state, which is shown to imply it.
  */
module History {
  import opened Options
  import opened Bytes
  import opened Uuids
  import opened Sequences
  import opened Framing

  const MAX_PAYLOAD := 8 * 1024 * 1024
  const I64_MAX := 0x7fff_ffff_ffff_ffff

  /** SHA-256: any function to 32 octets. */
  ghost predicate IsSha(sha: seq<Byte> -> seq<Byte>) {
    forall x :: |sha(x)| == 32
  }

  // ---------------------------------------------------------------- meaning

  ghost predicate ReceiptInRange(r: Receipt, tailSeq: int) {
    1 <= r.seqNo <= tailSeq && 1 <= r.length <= MAX_PAYLOAD && |r.sha| == 32
  }

  ghost predicate UniqueOps(receipts: seq<Receipt>) {
    forall i, j | 0 <= i < j < |receipts| :: receipts[i].op != receipts[j].op
  }

  /** `r` is the exact receipt of the row: operation, number, length and hash. */
  ghost predicate IsReceiptOf(r: Receipt, row: TailRow, sha: seq<Byte> -> seq<Byte>) {
    r.op == row.op && r.seqNo == row.seqNo && r.length == |row.payload| && r.sha == sha(row.payload)
  }

  ghost predicate Receipted(row: TailRow, receipts: seq<Receipt>, sha: seq<Byte> -> seq<Byte>) {
    exists k :: 0 <= k < |receipts| && IsReceiptOf(receipts[k], row, sha)
  }

  /** A contiguous tail after the cutoff, each row backed by its receipt, and unique receipts within range. */
  ghost predicate Canonical(cutoff: int, tailSeq: int, tail: seq<TailRow>, receipts: seq<Receipt>, sha: seq<Byte> -> seq<Byte>) {
    && 0 <= cutoff <= tailSeq
    && UniqueOps(receipts)
    && (forall k | 0 <= k < |receipts| :: ReceiptInRange(receipts[k], tailSeq))
    && |tail| == tailSeq - cutoff
    && (forall i | 0 <= i < |tail| ::
          tail[i].seqNo == cutoff + 1 + i && tail[i].payload != [] && Receipted(tail[i], receipts, sha))
  }

  // ---------------------------------------------------------------- the check

  method AnyReceipt(receipts: seq<Receipt>, row: TailRow, sha: seq<Byte> -> seq<Byte>) returns (found: bool)
    ensures found <==> Receipted(row, receipts, sha)
  {
    for k := 0 to |receipts|
      invariant forall j | 0 <= j < k :: !IsReceiptOf(receipts[j], row, sha)
    {
      var r := receipts[k];
      if r.op == row.op && r.seqNo == row.seqNo && r.length == |row.payload| && r.sha == sha(row.payload) {
        return true;
      }
    }
    return false;
  }

  method ReceiptsInRange(receipts: seq<Receipt>, tailSeq: int) returns (ok: bool)
    ensures ok <==> UniqueOps(receipts) && forall k | 0 <= k < |receipts| :: ReceiptInRange(receipts[k], tailSeq)
  {
    var ops: set<Uuid> := {};
    for k := 0 to |receipts|
      invariant forall i, j | 0 <= i < j < k :: receipts[i].op != receipts[j].op
      invariant forall u :: u in ops <==> exists i :: 0 <= i < k && receipts[i].op == u
      invariant forall j | 0 <= j < k :: ReceiptInRange(receipts[j], tailSeq)
    {
      var r := receipts[k];
      if r.op in ops || r.seqNo < 1 || r.seqNo > tailSeq || !(1 <= r.length <= MAX_PAYLOAD) || |r.sha| != 32 {
        return false;
      }
      ops := ops + {r.op};
    }
    return true;
  }

  /** Accepts exactly the canonical histories; `seq` stops short of overflowing 64 bits. */
  method CheckCanonicalHistory(cutoff: int, tailSeq: int, tail: seq<TailRow>, receipts: seq<Receipt>, sha: seq<Byte> -> seq<Byte>)
    returns (ok: bool)
    requires InI64(cutoff) && InI64(tailSeq)
    ensures ok <==> Canonical(cutoff, tailSeq, tail, receipts, sha)
  {
    if cutoff < 0 || tailSeq < cutoff {
      return false;
    }
    var inRange := ReceiptsInRange(receipts, tailSeq);
    if !inRange {
      return false;
    }
    var seqNo := cutoff;
    for i := 0 to |tail|
      invariant seqNo == cutoff + i <= I64_MAX
      invariant forall j | 0 <= j < i ::
                  tail[j].seqNo == cutoff + 1 + j && tail[j].payload != [] && Receipted(tail[j], receipts, sha)
    {
      if seqNo == I64_MAX {
        return false;
      }
      seqNo := seqNo + 1;
      var found := AnyReceipt(receipts, TailRow(seqNo, tail[i].op, tail[i].payload), sha);
      if tail[i].seqNo != seqNo || tail[i].payload == [] || !found {
        return false;
      }
      assert TailRow(seqNo, tail[i].op, tail[i].payload) == tail[i];
    }
    return seqNo == tailSeq;
  }

  /** One receipt per operation and one number per receipt: no operation occurs twice in a tail. */
  lemma TailOpsAreDistinct(cutoff: int, tailSeq: int, tail: seq<TailRow>, receipts: seq<Receipt>, sha: seq<Byte> -> seq<Byte>, i: nat, j: nat)
    requires Canonical(cutoff, tailSeq, tail, receipts, sha) && i < j < |tail|
    ensures tail[i].op != tail[j].op
  {
    assert Receipted(tail[i], receipts, sha) && Receipted(tail[j], receipts, sha);
    var k :| 0 <= k < |receipts| && IsReceiptOf(receipts[k], tail[i], sha);
    var l :| 0 <= l < |receipts| && IsReceiptOf(receipts[l], tail[j], sha);
    assert tail[i].seqNo == cutoff + 1 + i && tail[j].seqNo == cutoff + 1 + j;
    assert k != l;
  }

  /** Every row has one receipt of its operation, and that receipt states its number, length and hash. */
  lemma OneReceiptPerRow(cutoff: int, tailSeq: int, tail: seq<TailRow>, receipts: seq<Receipt>, sha: seq<Byte> -> seq<Byte>, i: nat)
    requires Canonical(cutoff, tailSeq, tail, receipts, sha) && i < |tail|
    ensures exists k ::
      && 0 <= k < |receipts| && (forall l | 0 <= l < |receipts| && receipts[l].op == tail[i].op :: l == k)
      && receipts[k] == Receipt(tail[i].op, cutoff + 1 + i, |tail[i].payload|, sha(tail[i].payload), receipts[k].actor)
  {
    assert Receipted(tail[i], receipts, sha);
    var k :| 0 <= k < |receipts| && IsReceiptOf(receipts[k], tail[i], sha);
  }

  /** Without a collision, the receipts determine the payload of every operation. */
  lemma ReceiptsDeterminePayloads(cutoff: int, tailSeq: int, a: seq<TailRow>, b: seq<TailRow>, receipts: seq<Receipt>, sha: seq<Byte> -> seq<Byte>)
    requires Canonical(cutoff, tailSeq, a, receipts, sha) && Canonical(cutoff, tailSeq, b, receipts, sha)
    requires (forall x, y :: sha(x) == sha(y) ==> x == y) && forall i | 0 <= i < |a| && i < |b| :: a[i].op == b[i].op
    ensures a == b
  {
    hide Canonical;
    CanonicalLength(cutoff, tailSeq, a, receipts, sha);
    CanonicalLength(cutoff, tailSeq, b, receipts, sha);
    forall i | 0 <= i < |a|
      ensures a[i] == b[i]
    {
      OneReceiptPerRow(cutoff, tailSeq, a, receipts, sha, i);
      OneReceiptPerRow(cutoff, tailSeq, b, receipts, sha, i);
      var k :| 0 <= k < |receipts| && (forall l | 0 <= l < |receipts| && receipts[l].op == a[i].op :: l == k)
               && receipts[k] == Receipt(a[i].op, cutoff + 1 + i, |a[i].payload|, sha(a[i].payload), receipts[k].actor);
      assert receipts[k].sha == sha(b[i].payload);
    }
  }

  lemma CanonicalLength(cutoff: int, tailSeq: int, tail: seq<TailRow>, receipts: seq<Receipt>, sha: seq<Byte> -> seq<Byte>)
    requires Canonical(cutoff, tailSeq, tail, receipts, sha)
    ensures |tail| == tailSeq - cutoff && forall i | 0 <= i < |tail| :: tail[i].seqNo == cutoff + 1 + i
  {
  }

  // ---------------------------------------------------------------- the archive's form

  /** `hex::encode`: two lower-case digits per octet. */
  function HexOf(s: seq<Byte>): (h: string)
    ensures |h| == 2 * |s|
  {
    if s == [] then [] else [HexDigit(s[0] / 16), HexDigit(s[0] % 16)] + HexOf(s[1..])
  }

  /** `hex::decode`: either letter case; odd lengths and other characters are refused. */
  function UnHexOf(h: string): (r: Option<seq<Byte>>)
    ensures r.Some? ==> 2 * |r.value| == |h|
  {
    if h == [] then Some([])
    else if |h| == 1 then None
    else
      match (HexValue(h[0]), HexValue(h[1]), UnHexOf(h[2..]))
      case (Some(a), Some(b), Some(rest)) => Some([16 * a + b] + rest)
      case _ => None
  }

  lemma {:induction false} HexOfRoundTrip(s: seq<Byte>)
    ensures UnHexOf(HexOf(s)) == Some(s)
  {
    hide HexDigit, HexValue;
    if s != [] {
      HexOfRoundTrip(s[1..]);
      DigitRoundTrip(s[0] / 16);
      DigitRoundTrip(s[0] % 16);
      var h := HexOf(s);
      assert h[2..] == HexOf(s[1..]);
      assert s == [s[0]] + s[1..];
    }
  }

  datatype ArchivedReceipt = ArchivedReceipt(op: Uuid, seqNo: int, length: int, shaHex: string, actor: Uuid, created: string)

  datatype Update = Update(seqNo: int, op: Uuid, entry: string, created: string)

  datatype NativeState = NativeState(kind: string, target: Uuid, stateEntry: string, encoding: int, cutoff: int, tailSeq: int,
                                     compacted: Option<string>, created: string, updated: string,
                                     updates: seq<Update>, receipts: seq<ArchivedReceipt>)

  function Decimal(n: nat): string {
    if n < 10 then [HexDigit(n)] else Decimal(n / 10) + [HexDigit(n % 10)]
  }

  function EntryDir(s: NativeState): string {
    "native/" + s.kind + "/" + ToString(s.target) + "/"
  }

  ghost predicate Dated(clock: string -> Option<int>, at: string) {
    clock(at).Some?
  }

  /** The three timestamps of a state. */
  ghost predicate StateDated(s: NativeState, clock: string -> Option<int>) {
    (s.compacted.Some? ==> Dated(clock, s.compacted.value)) && Dated(clock, s.created) && Dated(clock, s.updated)
  }

  type Entries = map<string, seq<Byte>>

  ghost predicate PayloadFits(entries: Entries, name: string) {
    name in entries && 1 <= |entries[name]| <= MAX_PAYLOAD
  }

  ghost predicate IsArchivedReceiptOf(r: ArchivedReceipt, u: Update, payload: seq<Byte>, sha: seq<Byte> -> seq<Byte>) {
    r.op == u.op && r.seqNo == u.seqNo && r.length == |payload| && r.shaHex == HexOf(sha(payload))
  }

  /** Update `i` of a state: its number, its entry and its receipt. */
  ghost predicate UpdateOk(s: NativeState, i: nat, entries: Entries, sha: seq<Byte> -> seq<Byte>, clock: string -> Option<int>)
    requires i < |s.updates|
  {
    var u := s.updates[i];
    && Dated(clock, u.created) && u.seqNo == s.cutoff + 1 + i
    && u.seqNo >= 0 && u.entry == EntryDir(s) + Decimal(u.seqNo) + ".v1"
    && PayloadFits(entries, u.entry)
    && exists k :: 0 <= k < |s.receipts| && IsArchivedReceiptOf(s.receipts[k], u, entries[u.entry], sha)
  }

  ghost predicate ArchivedReceiptOk(r: ArchivedReceipt, s: NativeState, actor: Uuid, clock: string -> Option<int>) {
    && 1 <= r.seqNo <= s.tailSeq && 1 <= r.length <= MAX_PAYLOAD
    && |r.shaHex| == 64 && UnHexOf(r.shaHex).Some? && r.actor == actor && Dated(clock, r.created)
  }

  /** The archive validator's rules for one native state. */
  ghost predicate StateOk(s: NativeState, entries: Entries, actor: Uuid, sha: seq<Byte> -> seq<Byte>, clock: string -> Option<int>) {
    && StateDated(s, clock) && s.encoding == 1 && 0 <= s.cutoff <= s.tailSeq
    && s.stateEntry == EntryDir(s) + "state.v1" && PayloadFits(entries, s.stateEntry)
    && |s.updates| == s.tailSeq - s.cutoff
    && (forall i: nat | i < |s.updates| :: UpdateOk(s, i, entries, sha, clock))
    && (forall i, j | 0 <= i < j < |s.receipts| :: s.receipts[i].op != s.receipts[j].op)
    && (forall k | 0 <= k < |s.receipts| :: ArchivedReceiptOk(s.receipts[k], s, actor, clock))
  }

  method UpdateHasReceipt(s: NativeState, u: Update, payload: seq<Byte>, sha: seq<Byte> -> seq<Byte>) returns (found: bool)
    ensures found <==> exists k :: 0 <= k < |s.receipts| && IsArchivedReceiptOf(s.receipts[k], u, payload, sha)
  {
    for k := 0 to |s.receipts|
      invariant forall j | 0 <= j < k :: !IsArchivedReceiptOf(s.receipts[j], u, payload, sha)
    {
      var r := s.receipts[k];
      if r.op == u.op && r.seqNo == u.seqNo && r.length == |payload| && r.shaHex == HexOf(sha(payload)) {
        return true;
      }
    }
    return false;
  }

  method ArchivedReceiptsOk(s: NativeState, actor: Uuid, clock: string -> Option<int>) returns (ok: bool)
    ensures ok <==> (forall i, j | 0 <= i < j < |s.receipts| :: s.receipts[i].op != s.receipts[j].op)
                    && forall k | 0 <= k < |s.receipts| :: ArchivedReceiptOk(s.receipts[k], s, actor, clock)
  {
    var ops: set<Uuid> := {};
    for k := 0 to |s.receipts|
      invariant forall i, j | 0 <= i < j < k :: s.receipts[i].op != s.receipts[j].op
      invariant forall u :: u in ops <==> exists i :: 0 <= i < k && s.receipts[i].op == u
      invariant forall j | 0 <= j < k :: ArchivedReceiptOk(s.receipts[j], s, actor, clock)
    {
      var r := s.receipts[k];
      if clock(r.created).None? || r.op in ops || r.seqNo < 1 || r.seqNo > s.tailSeq || !(1 <= r.length <= MAX_PAYLOAD)
         || UnHexOf(r.shaHex).None? || |r.shaHex| != 64 || r.actor != actor {
        return false;
      }
      ops := ops + {r.op};
    }
    return true;
  }

  /** The validator's loop over one state's updates and receipts. */
  method ValidateState(s: NativeState, entries: Entries, actor: Uuid, sha: seq<Byte> -> seq<Byte>, clock: string -> Option<int>) returns (ok: bool)
    requires InI64(s.cutoff) && InI64(s.tailSeq)
    ensures ok <==> StateOk(s, entries, actor, sha, clock)
  {
    hide EntryDir, Decimal, HexOf, UnHexOf;
    if clock(s.created).None? || clock(s.updated).None? || (s.compacted.Some? && clock(s.compacted.value).None?) || s.encoding != 1 || s.cutoff < 0 || s.tailSeq < s.cutoff || s.stateEntry != EntryDir(s) + "state.v1" {
      return false;
    }
    var seqNo := s.cutoff;
    for i := 0 to |s.updates|
      invariant seqNo == s.cutoff + i <= I64_MAX
      invariant forall j: nat | j < i :: UpdateOk(s, j, entries, sha, clock)
    {
      var u := s.updates[i];
      if clock(u.created).None? {
        assert !UpdateOk(s, i, entries, sha, clock);
        return false;
      }
      if seqNo == I64_MAX {
        return false;
      }
      seqNo := seqNo + 1;
      if u.seqNo != seqNo || u.entry != EntryDir(s) + Decimal(seqNo) + ".v1" || u.entry !in entries
         || entries[u.entry] == [] || |entries[u.entry]| > MAX_PAYLOAD {
        assert !UpdateOk(s, i, entries, sha, clock);
        return false;
      }
      var found := UpdateHasReceipt(s, u, entries[u.entry], sha);
      if !found {
        assert !UpdateOk(s, i, entries, sha, clock);
        return false;
      }
    }
    var receiptsOk := ArchivedReceiptsOk(s, actor, clock);
    if !receiptsOk || seqNo != s.tailSeq || s.stateEntry !in entries {
      return false;
    }
    return entries[s.stateEntry] != [] && |entries[s.stateEntry]| <= MAX_PAYLOAD;
  }

  ghost predicate TargetOk(s: NativeState, documents: set<Uuid>, tasks: set<Uuid>) {
    (s.kind == "document" && s.target in documents) || (s.kind == "task" && s.target in tasks)
  }

  /** One state a target, each for a known target and sound by itself. */
  ghost predicate StatesOk(states: seq<NativeState>, documents: set<Uuid>, tasks: set<Uuid>, entries: Entries, actor: Uuid, sha: seq<Byte> -> seq<Byte>, clock: string -> Option<int>) {
    && (forall i | 0 <= i < |states| :: TargetOk(states[i], documents, tasks) && StateOk(states[i], entries, actor, sha, clock))
    && (forall i, j | 0 <= i < j < |states| :: (states[i].kind, states[i].target) != (states[j].kind, states[j].target))
  }

  /** The archive entries that a state accounts for. */
  ghost predicate Accounted(states: seq<NativeState>, name: string) {
    exists i :: 0 <= i < |states| && (name == states[i].stateEntry || exists k :: 0 <= k < |states[i].updates| && name == states[i].updates[k].entry)
  }

  method ValidateStates(states: seq<NativeState>, documents: set<Uuid>, tasks: set<Uuid>, entries: Entries, actor: Uuid, sha: seq<Byte> -> seq<Byte>, clock: string -> Option<int>)
    returns (ok: bool, expected: set<string>)
    requires forall i | 0 <= i < |states| :: InI64(states[i].cutoff) && InI64(states[i].tailSeq)
    ensures ok <==> StatesOk(states, documents, tasks, entries, actor, sha, clock)
    ensures ok ==> forall name :: name in expected <==> Accounted(states, name)
  {
    hide StateOk, Accounted;
    expected := {};
    ok := KeysDiffer(states, (s: NativeState) => (s.kind, s.target));
    assert ok <==> forall i, j | 0 <= i < j < |states| :: (states[i].kind, states[i].target) != (states[j].kind, states[j].target);
    if !ok {
      return;
    }
    NothingAccounted(states);
    for n := 0 to |states|
      invariant ok && forall i | 0 <= i < n :: TargetOk(states[i], documents, tasks) && StateOk(states[i], entries, actor, sha, clock)
      invariant forall name :: name in expected <==> Accounted(states[..n], name)
    {
      var s := states[n];
      var known := if s.kind == "document" then s.target in documents else if s.kind == "task" then s.target in tasks else false;
      if !known {
        assert !TargetOk(states[n], documents, tasks);
        return false, expected;
      }
      ok := ValidateState(s, entries, actor, sha, clock);
      if !ok {
        return;
      }
      var names := set k | 0 <= k < |s.updates| :: s.updates[k].entry;
      AccountOne(states, n, names);
      expected := expected + {s.stateEntry} + names;
    }
    assert states[..|states|] == states;
  }

  lemma NothingAccounted(states: seq<NativeState>)
    ensures forall name :: !Accounted(states[..0], name)
  {
  }

  lemma AccountOne(states: seq<NativeState>, n: nat, names: set<string>)
    requires n < |states| && names == set k | 0 <= k < |states[n].updates| :: states[n].updates[k].entry
    ensures forall name :: Accounted(states[..n + 1], name) <==> Accounted(states[..n], name) || name == states[n].stateEntry || name in names
  {
    var more, some := states[..n + 1], states[..n];
    forall name
      ensures Accounted(more, name) <==> Accounted(some, name) || name == states[n].stateEntry || name in names
    {
      if Accounted(more, name) {
        var i :| 0 <= i < |more| && (name == more[i].stateEntry || exists k :: 0 <= k < |more[i].updates| && name == more[i].updates[k].entry);
        if i < n {
          assert some[i] == more[i];
        }
      }
      if Accounted(some, name) {
        var i :| 0 <= i < |some| && (name == some[i].stateEntry || exists k :: 0 <= k < |some[i].updates| && name == some[i].updates[k].entry);
        assert more[i] == some[i];
      }
      if name == states[n].stateEntry || name in names {
        assert more[n] == states[n];
      }
    }
  }

  // ---------------------------------------------------------------- entry names

  /** The number a decimal text stands for. */
  ghost function Value(s: string): int {
    if s == [] then 0 else 10 * Value(s[..|s| - 1]) + (s[|s| - 1] as int - '0' as int)
  }

  /** A number is printed as its decimal digits, without a leading zero. */
  lemma {:induction false} DecimalIs(n: nat)
    ensures var d := Decimal(n);
            && d != [] && Value(d) == n && (forall i | 0 <= i < |d| :: '0' <= d[i] <= '9') && (d[0] == '0' ==> d == "0")
  {
    if n < 10 {
      assert [HexDigit(n)][..0] == [];
    } else {
      DecimalIs(n / 10);
      var d := Decimal(n);
      assert d[..|d| - 1] == Decimal(n / 10);
      DigitIsDecimal(n % 10);
    }
  }

  lemma DigitIsDecimal(d: nat)
    requires d < 10
    ensures HexDigit(d) as int == '0' as int + d
  {
  }

  ghost function StateName(s: NativeState): string {
    EntryDir(s) + "state.v1"
  }

  ghost function UpdateName(s: NativeState, n: nat): string {
    EntryDir(s) + Decimal(n) + ".v1"
  }

  lemma SameTail(dir: string, a: string, b: string, suffix: string)
    requires dir + a + suffix == dir + b + suffix
    ensures a == b
  {
    assert |a| == |b|;
    assert (dir + a + suffix)[|dir|..|dir| + |a|] == a && (dir + b + suffix)[|dir|..|dir| + |b|] == b;
  }

  /** Within a state's directory the names tell the snapshot and the updates apart. */
  lemma NamesInDirectory(s: NativeState, n: nat, m: nat)
    ensures UpdateName(s, n) != StateName(s)
    ensures UpdateName(s, n) == UpdateName(s, m) ==> n == m
  {
    hide EntryDir, Decimal;
    var dir := EntryDir(s);
    DecimalIs(n);
    DecimalIs(m);
    assert UpdateName(s, n)[|dir|] == Decimal(n)[0];
    assert StateName(s)[|dir|] == 's';
    if UpdateName(s, n) == UpdateName(s, m) {
      SameTail(dir, Decimal(n), Decimal(m), ".v1");
    }
  }

  /** Directories of different targets have no name in common. */
  lemma DirectoriesApart(a: NativeState, b: NativeState, x: string, y: string)
    requires (a.kind == "document" || a.kind == "task") && (b.kind == "document" || b.kind == "task")
    requires EntryDir(a) + x == EntryDir(b) + y
    ensures a.kind == b.kind && a.target == b.target
  {
    hide ToString, Parse;
    var p, q := EntryDir(a) + x, EntryDir(b) + y;
    assert p[7] == a.kind[0] && q[7] == b.kind[0];
    assert a.kind == b.kind;
    var at := 7 + |a.kind| + 1;
    assert p[at..at + 36] == ToString(a.target) && q[at..at + 36] == ToString(b.target);
    ParseToString(a.target);
    ParseToString(b.target);
  }

  /** No two states and updates of accepted states share an archive entry. */
  lemma EntriesAreDistinct(states: seq<NativeState>, documents: set<Uuid>, tasks: set<Uuid>, entries: Entries, actor: Uuid, sha: seq<Byte> -> seq<Byte>,
                           clock: string -> Option<int>, i: nat, j: nat, k: nat, l: nat)
    requires StatesOk(states, documents, tasks, entries, actor, sha, clock) && i < |states| && j < |states| && k < |states[i].updates|
    ensures i != j ==> states[i].stateEntry != states[j].stateEntry
    ensures states[i].updates[k].entry != states[j].stateEntry
    ensures l < |states[j].updates| && states[i].updates[k].entry == states[j].updates[l].entry ==> i == j && k == l
  {
    hide EntryDir, Decimal, HexOf, UnHexOf, Dated, StateDated;
    var s, t := states[i], states[j];
    assert StateOk(s, entries, actor, sha, clock) && StateOk(t, entries, actor, sha, clock) && TargetOk(s, documents, tasks) && TargetOk(t, documents, tasks);
    assert UpdateOk(s, k, entries, sha, clock);
    var u := s.updates[k];
    SplitName(s, u.seqNo);
    if s.stateEntry == t.stateEntry {
      DirectoriesApart(s, t, "state.v1", "state.v1");
      SameTarget(states, documents, tasks, entries, actor, sha, clock, i, j);
    }
    if u.entry == t.stateEntry {
      DirectoriesApart(s, t, Decimal(u.seqNo) + ".v1", "state.v1");
      SameTarget(states, documents, tasks, entries, actor, sha, clock, i, j);
      NamesInDirectory(s, u.seqNo, 0);
    }
    if l < |t.updates| && u.entry == t.updates[l].entry {
      assert UpdateOk(t, l, entries, sha, clock);
      SplitName(t, t.updates[l].seqNo);
      DirectoriesApart(s, t, Decimal(u.seqNo) + ".v1", Decimal(t.updates[l].seqNo) + ".v1");
      SameTarget(states, documents, tasks, entries, actor, sha, clock, i, j);
      NamesInDirectory(s, u.seqNo, t.updates[l].seqNo);
    }
  }

  lemma {:induction false} SplitName(s: NativeState, n: nat)
    ensures UpdateName(s, n) == EntryDir(s) + (Decimal(n) + ".v1")
  {
    hide EntryDir, Decimal;
  }

  lemma SameTarget(states: seq<NativeState>, documents: set<Uuid>, tasks: set<Uuid>, entries: Entries, actor: Uuid, sha: seq<Byte> -> seq<Byte>,
                   clock: string -> Option<int>, i: nat, j: nat)
    requires StatesOk(states, documents, tasks, entries, actor, sha, clock) && i < |states| && j < |states|
    requires states[i].kind == states[j].kind && states[i].target == states[j].target
    ensures i == j
  {
    hide StateOk, TargetOk;
  }

  // ---------------------------------------------------------------- archive state to canonical history

  /** The restored rows: payload octets from the archive's entries. */
  ghost function TailOf(updates: seq<Update>, entries: Entries): (tail: seq<TailRow>)
    requires forall i | 0 <= i < |updates| :: updates[i].entry in entries
    ensures |tail| == |updates|
    ensures forall i | 0 <= i < |updates| :: tail[i] == TailRow(updates[i].seqNo, updates[i].op, entries[updates[i].entry])
  {
    seq(|updates|, i requires 0 <= i < |updates| => TailRow(updates[i].seqNo, updates[i].op, entries[updates[i].entry]))
  }

  /** The restored receipts: hashes decoded from hexadecimal. */
  ghost function ReceiptsOf(receipts: seq<ArchivedReceipt>): (rs: seq<Receipt>)
    requires forall i | 0 <= i < |receipts| :: UnHexOf(receipts[i].shaHex).Some?
    ensures |rs| == |receipts|
    ensures forall i | 0 <= i < |receipts| ::
              rs[i] == Receipt(receipts[i].op, receipts[i].seqNo, receipts[i].length, UnHexOf(receipts[i].shaHex).value, receipts[i].actor)
  {
    seq(|receipts|, i requires 0 <= i < |receipts| =>
      Receipt(receipts[i].op, receipts[i].seqNo, receipts[i].length, UnHexOf(receipts[i].shaHex).value, receipts[i].actor))
  }

  lemma ArchivedIsReadable(s: NativeState, entries: Entries, actor: Uuid, sha: seq<Byte> -> seq<Byte>, clock: string -> Option<int>)
    requires StateOk(s, entries, actor, sha, clock)
    ensures forall i | 0 <= i < |s.updates| :: s.updates[i].entry in entries
    ensures forall i | 0 <= i < |s.receipts| :: UnHexOf(s.receipts[i].shaHex).Some?
  {
    forall i: nat | i < |s.updates|
      ensures s.updates[i].entry in entries
    {
      assert UpdateOk(s, i, entries, sha, clock);
    }
    forall i | 0 <= i < |s.receipts|
      ensures UnHexOf(s.receipts[i].shaHex).Some?
    {
      assert ArchivedReceiptOk(s.receipts[i], s, actor, clock);
    }
  }

  /** Every state the archive validator accepts is restored to a history `check_canonical_history` accepts. */
  lemma ArchivedStateIsCanonical(s: NativeState, entries: Entries, actor: Uuid, sha: seq<Byte> -> seq<Byte>, clock: string -> Option<int>)
    requires IsSha(sha) && StateOk(s, entries, actor, sha, clock)
    ensures (forall i | 0 <= i < |s.updates| :: s.updates[i].entry in entries)
            && (forall i | 0 <= i < |s.receipts| :: UnHexOf(s.receipts[i].shaHex).Some?)
            && Canonical(s.cutoff, s.tailSeq, TailOf(s.updates, entries), ReceiptsOf(s.receipts), sha)
  {
    hide UnHexOf, HexOf, EntryDir, Decimal;
    ArchivedIsReadable(s, entries, actor, sha, clock);
    var tail, receipts := TailOf(s.updates, entries), ReceiptsOf(s.receipts);
    forall k | 0 <= k < |receipts|
      ensures ReceiptInRange(receipts[k], s.tailSeq)
    {
      assert ArchivedReceiptOk(s.receipts[k], s, actor, clock);
    }
    forall i: nat | i < |tail|
      ensures tail[i].seqNo == s.cutoff + 1 + i && tail[i].payload != [] && Receipted(tail[i], receipts, sha)
    {
      assert UpdateOk(s, i, entries, sha, clock);
      var u := s.updates[i];
      var k :| 0 <= k < |s.receipts| && IsArchivedReceiptOf(s.receipts[k], u, entries[u.entry], sha);
      HexOfRoundTrip(sha(entries[u.entry]));
      assert IsReceiptOf(receipts[k], tail[i], sha);
    }
  }
}
