/**
  * Key rotation: a paginated read-only pass, then compare-and-set re-sealing, a batch a transaction.
  * Other writers' committed edits and failing database calls are inputs of the run, one for each
  * database call, so that every interleaving and every fault is covered.
  */
module Rotation {
  import opened Options
  import opened Bytes
  import opened Uuids
  import opened Sequences
  import opened SecretBox

  const BATCH := 100

  datatype SecretClass = Webhook | WorkspaceOidc | UserMfa | Vapid | Zotero

  const ALL: seq<SecretClass> := [Webhook, WorkspaceOidc, UserMfa, Vapid, Zotero]

  function Index(kind: SecretClass): (i: nat)
    ensures i < 5 && ALL[i] == kind
  {
    match kind
    case Webhook => 0
    case WorkspaceOidc => 1
    case UserMfa => 2
    case Vapid => 3
    case Zotero => 4
  }

  /** A sealed value's row; the push key is the one row of its class, under the nil id. */
  datatype Key = Key(kind: SecretClass, id: Uuid)

  /** Stored values by row. */
  type State = map<Key, string>

  /** Another transaction's committed effect on one row. */
  datatype Edit = Put(key: Key, stored: string) | Delete(key: Key)

  /** How a database call ends; a commit may take effect and still report an error. */
  datatype Fault = Fine | Broken | AckLost

  /** The identity columns of a row fix the context its value is sealed under; other writers, faults and nonces are inputs. */
  datatype World = World(crypto: Crypto, ring: Keyring, contexts: Key -> string, schedule: nat -> seq<Edit>, faults: nat -> Fault, nonces: nat -> seq<Byte>)

  ghost predicate WorldOk(w: World) {
    Lawful(w.crypto) && RingOk(w.ring) && forall n: nat :: |w.nonces(n)| == NONCE_LEN
  }

  ghost predicate Quiet(w: World) {
    forall n: nat :: w.schedule(n) == []
  }

  ghost predicate NoFaults(w: World) {
    forall n: nat :: w.faults(n).Fine?
  }

  predicate Active(w: World, stored: string) {
    KeyId(stored) == Some(w.ring.active)
  }

  predicate Opens(w: World, k: Key, stored: string) {
    Open(w.crypto, w.ring, stored, w.contexts(k)).Ok?
  }

  ghost predicate AllOpen(w: World, rows: State) {
    forall k | k in rows :: Opens(w, k, rows[k])
  }

  // ---------------------------------------------------------------- steps

  /** Edits to rows locked by the rotation's own transaction wait. */
  function Apply(rows: State, edits: seq<Edit>, locked: set<Key>): State
    decreases edits
  {
    if edits == [] then rows
    else
      var e := edits[0];
      Apply(if e.key in locked then rows else if e.Put? then rows[e.key := e.stored] else rows - {e.key}, edits[1..], locked)
  }

  lemma {:induction false} ApplyKeepsLocked(rows: State, edits: seq<Edit>, locked: set<Key>, k: Key)
    requires k in locked && k in rows
    ensures k in Apply(rows, edits, locked) && Apply(rows, edits, locked)[k] == rows[k]
    decreases edits
  {
    if edits != [] {
      var e := edits[0];
      ApplyKeepsLocked(if e.key in locked then rows else if e.Put? then rows[e.key := e.stored] else rows - {e.key}, edits[1..], locked, k);
    }
  }

  /** From another key to the active one, opening to the same value. */
  ghost predicate Reseals(w: World, k: Key, was: string, now: string) {
    && KeyId(was) != Some(w.ring.active) && KeyId(now) == Some(w.ring.active)
    && Opened(w.crypto, w.ring, was, w.contexts(k)).Some?
    && Opened(w.crypto, w.ring, was, w.contexts(k)) == Opened(w.crypto, w.ring, now, w.contexts(k))
  }

  ghost predicate ResealRow(w: World, k: Key, was: string, now: string) {
    now == was || Reseals(w, k, was, now)
  }

  /** What a committed batch may do: no row more or less, and each row kept or re-sealed. */
  ghost predicate ResealStep(w: World, before: State, after: State) {
    before.Keys == after.Keys && forall k | k in before :: ResealRow(w, k, before[k], after[k])
  }

  datatype Step = Others(before: State, after: State) | Rotated(before: State, after: State)

  /** The committed states, one after the other; every step of the rotation itself re-seals. */
  ghost predicate History(w: World, initial: State, log: seq<Step>, now: State) {
    if log == [] then now == initial
    else
      var last := log[|log| - 1];
      && last.after == now && (last.Rotated? ==> ResealStep(w, last.before, last.after))
      && History(w, initial, log[..|log| - 1], last.before)
  }

  lemma {:induction false} HistorySnoc(w: World, initial: State, log: seq<Step>, step: Step)
    requires History(w, initial, log, step.before) && (step.Rotated? ==> ResealStep(w, step.before, step.after))
    ensures History(w, initial, log + [step], step.after)
  {
    assert (log + [step])[..|log|] == log;
  }

  ghost predicate OthersSpare(log: seq<Step>, k: Key) {
    forall n | 0 <= n < |log| && log[n].Others? && k in log[n].before :: k in log[n].after && log[n].after[k] == log[n].before[k]
  }

  /** Over any run: a row no other writer touches opens to the same value throughout. */
  lemma {:induction false} PlaintextSurvives(w: World, initial: State, log: seq<Step>, now: State, k: Key)
    requires History(w, initial, log, now) && OthersSpare(log, k) && k in initial
    ensures k in now && Opened(w.crypto, w.ring, now[k], w.contexts(k)) == Opened(w.crypto, w.ring, initial[k], w.contexts(k))
    decreases |log|
  {
    hide Opened, KeyId;
    if log != [] {
      var n := |log| - 1;
      assert forall m | 0 <= m < n :: log[..n][m] == log[m];
      PlaintextSurvives(w, initial, log[..n], log[n].before, k);
      if log[n].Rotated? {
        assert ResealRow(w, k, log[n].before[k], log[n].after[k]);
      }
    }
  }

  /** Re-sealing what was read. */
  lemma SealReseals(w: World, k: Key, stored: string, iv: seq<Byte>, plaintext: string)
    requires WorldOk(w) && |iv| == NONCE_LEN && !Active(w, stored)
    requires Open(w.crypto, w.ring, stored, w.contexts(k)) == Ok(plaintext)
    ensures var s := Seal(w.crypto, w.ring, iv, plaintext, w.contexts(k)); s.Ok? && Reseals(w, k, stored, s.value)
  {
    hide Open, Seal, KeyId, Lawful, RingOk;
    SealOpens(w.crypto, w.ring, iv, plaintext, w.contexts(k));
  }

  /** With a cipher that binds its context, a re-sealed value agrees with the old one under every other context too: neither opens. */
  lemma ResealsEverywhere(w: World, k: Key, was: string, now: string, context: string)
    requires Binding(w.crypto) && Reseals(w, k, was, now)
    ensures Opened(w.crypto, w.ring, was, context) == Opened(w.crypto, w.ring, now, context)
  {
    hide Opened, KeyId, Binding;
    if context != w.contexts(k) {
      OneContext(w.crypto, w.ring, was, w.contexts(k), context);
      OneContext(w.crypto, w.ring, now, w.contexts(k), context);
    }
  }

  /** The rotation's uncommitted writes over the committed rows. */
  function Overlay(rows: State, own: map<Key, string>): (r: State)
    ensures r.Keys == rows.Keys
  {
    map k | k in rows :: if k in own then own[k] else rows[k]
  }

  ghost predicate OwnReseals(w: World, rows: State, own: map<Key, string>) {
    forall k | k in own :: k in rows && Reseals(w, k, rows[k], own[k])
  }

  // ---------------------------------------------------------------- pages

  predicate After(after: Option<Uuid>, id: Uuid) {
    after.Some? ==> after.value < id
  }

  ghost predicate Ahead(rows: State, kind: SecretClass, after: Option<Uuid>, k: Key) {
    k in rows && k.kind == kind && After(after, k.id)
  }

  /** The first hundred rows after the cursor, in id order. */
  ghost predicate Page(rows: State, kind: SecretClass, after: Option<Uuid>, keys: seq<Key>) {
    && |keys| <= BATCH
    && (forall i | 0 <= i < |keys| :: Ahead(rows, kind, after, keys[i]))
    && (forall i, j | 0 <= i < j < |keys| :: keys[i].id < keys[j].id)
    && (forall k | Ahead(rows, kind, after, k) :: k in keys || (|keys| == BATCH && keys[BATCH - 1].id < k.id))
  }

  lemma {:induction false} LeastExists(keys: set<Key>, x: Key)
    requires x in keys
    ensures exists k :: k in keys && forall m | m in keys :: k.id <= m.id
    decreases x.id
  {
    if m :| m in keys && m.id < x.id {
      LeastExists(keys, m);
    } else {
      assert x in keys && forall m | m in keys :: x.id <= m.id;
    }
  }

  /** `keys` have been taken in id order, `left` are the rows still ahead. */
  ghost predicate Selecting(rows: State, kind: SecretClass, after: Option<Uuid>, keys: seq<Key>, left: set<Key>) {
    && (forall i | 0 <= i < |keys| :: Ahead(rows, kind, after, keys[i]))
    && (forall i, j | 0 <= i < j < |keys| :: keys[i].id < keys[j].id)
    && (forall k | Ahead(rows, kind, after, k) :: k in keys || k in left)
    && (forall k | k in left :: Ahead(rows, kind, after, k))
    && (forall k, i | k in left && 0 <= i < |keys| :: keys[i].id < k.id)
  }

  lemma SelectNext(rows: State, kind: SecretClass, after: Option<Uuid>, keys: seq<Key>, left: set<Key>, k: Key)
    requires Selecting(rows, kind, after, keys, left) && k in left && forall m | m in left :: k.id <= m.id
    ensures Selecting(rows, kind, after, keys + [k], left - {k})
  {
    hide After;
    forall m | m in left - {k}
      ensures k.id < m.id
    {
      assert Ahead(rows, kind, after, m) && Ahead(rows, kind, after, k);
      assert m == Key(kind, m.id) && k == Key(kind, k.id);
    }
    assert forall m :: m in keys + [k] <==> m in keys || m == k;
  }

  method SelectPage(rows: State, kind: SecretClass, after: Option<Uuid>) returns (keys: seq<Key>)
    ensures Page(rows, kind, after, keys)
  {
    hide After, Selecting, Page;
    var left := set k | k in rows && k.kind == kind && After(after, k.id);
    keys := [];
    SelectStart(rows, kind, after, left);
    while |keys| < BATCH && left != {}
      invariant |keys| <= BATCH && Selecting(rows, kind, after, keys, left)
      decreases left
    {
      var some :| some in left;
      LeastExists(left, some);
      var k :| k in left && forall m | m in left :: k.id <= m.id;
      SelectNext(rows, kind, after, keys, left, k);
      keys := keys + [k];
      left := left - {k};
    }
    SelectEnd(rows, kind, after, keys, left);
  }

  lemma SelectStart(rows: State, kind: SecretClass, after: Option<Uuid>, left: set<Key>)
    requires left == set k | k in rows && k.kind == kind && After(after, k.id)
    ensures Selecting(rows, kind, after, [], left)
  {
  }

  lemma SelectEnd(rows: State, kind: SecretClass, after: Option<Uuid>, keys: seq<Key>, left: set<Key>)
    requires Selecting(rows, kind, after, keys, left) && |keys| <= BATCH && (|keys| == BATCH || left == {})
    ensures Page(rows, kind, after, keys)
  {
    hide After;
  }

  /** The rows of a class after the cursor, up to and including `last`. */
  ghost function Span(rows: State, kind: SecretClass, after: Option<Uuid>, last: Uuid): set<Key> {
    set k | k in rows && k.kind == kind && After(after, k.id) && k.id <= last
  }

  lemma PageIsSpan(rows: State, kind: SecretClass, after: Option<Uuid>, keys: seq<Key>)
    requires Page(rows, kind, after, keys) && keys != []
    ensures ToSet(keys) == Span(rows, kind, after, keys[|keys| - 1].id)
    ensures |Span(rows, kind, after, keys[|keys| - 1].id)| == |keys|
  {
    var last := keys[|keys| - 1].id;
    forall k
      ensures k in keys <==> k in Span(rows, kind, after, last)
    {
      if k in keys {
        var i :| 0 <= i < |keys| && keys[i] == k;
        assert Ahead(rows, kind, after, keys[i]);
      }
      if k in Span(rows, kind, after, last) {
        assert Ahead(rows, kind, after, k);
      }
    }
    DistinctSize(keys);
  }

  // ---------------------------------------------------------------- one batch

  ghost function Inactive(w: World, rows: State, keys: set<Key>): set<Key> {
    set k | k in keys && k in rows && !Active(w, rows[k])
  }

  /** A batch that went through: exactly the rows up to `last` are under the active key now. */
  ghost predicate BatchDone(w: World, before: State, after: State, kind: SecretClass, from: Option<Uuid>, last: Uuid, listed: nat, changed: nat) {
    var span := Span(before, kind, from, last);
    && ResealStep(w, before, after)
    && |span| == listed && |Inactive(w, before, span)| == changed
    && (forall k | k in span :: Active(w, after[k]))
    && (forall k | k in before && (k !in span || Active(w, before[k])) :: after[k] == before[k])
  }

  lemma OverlayReseals(w: World, rows: State, own: map<Key, string>)
    requires OwnReseals(w, rows, own)
    ensures ResealStep(w, rows, Overlay(rows, own))
  {
    hide Reseals;
  }

  lemma EmptyOverlay(w: World, rows: State, own: map<Key, string>)
    ensures own == map[] ==> Overlay(rows, own) == rows && OwnReseals(w, rows, own)
  {
  }

  /** Writing exactly the inactive rows of a page finishes the page. */
  lemma OverlayIsDone(w: World, rows: State, kind: SecretClass, from: Option<Uuid>, keys: seq<Key>, own: map<Key, string>)
    requires Page(rows, kind, from, keys) && keys != [] && OwnReseals(w, rows, own)
    requires own.Keys == Inactive(w, rows, ToSet(keys))
    ensures BatchDone(w, rows, Overlay(rows, own), kind, from, keys[|keys| - 1].id, |keys|, |own|)
  {
    hide KeyId, Opened, Page, Span;
    var last := keys[|keys| - 1].id;
    PageIsSpan(rows, kind, from, keys);
    OverlayReseals(w, rows, own);
    SpanInside(rows, kind, from, last);
    assert |own| == |own.Keys|;
  }

  lemma SpanInside(rows: State, kind: SecretClass, from: Option<Uuid>, last: Uuid)
    ensures Span(rows, kind, from, last) <= rows.Keys
  {
  }

  lemma InactiveSnoc(w: World, rows: State, keys: seq<Key>, n: nat)
    requires n < |keys| && keys[n] in rows && Distinct(keys)
    ensures Inactive(w, rows, ToSet(keys[..n + 1]))
         == Inactive(w, rows, ToSet(keys[..n])) + (if Active(w, rows[keys[n]]) then {} else {keys[n]})
    ensures keys[n] !in Inactive(w, rows, ToSet(keys[..n]))
  {
    hide Active;
    assert keys[..n + 1] == keys[..n] + [keys[n]];
  }

  datatype Batch = Empty | Done(last: Uuid, listed: nat, changed: nat) | Failed(outcome: Outcome)

  datatype Outcome =
    | Rotation(changed: nat, kept: nat)
    | Preflight(failed: nat)
    | Unopenable(key: Key, reason: Error)
    | Conflict(key: Key)
    | Db

  // ---------------------------------------------------------------- progress over all classes

  /** Rows the cursor has passed. */
  ghost predicate Passed(i: nat, after: Option<Uuid>, k: Key) {
    Index(k.kind) < i || (Index(k.kind) == i && after.Some? && k.id <= after.value)
  }

  ghost function PassedSet(rows: State, i: nat, after: Option<Uuid>): set<Key> {
    set k | k in rows && Passed(i, after, k)
  }

  lemma PassedGrows(rows: State, i: nat, after: Option<Uuid>, last: Uuid)
    requires i < 5 && After(after, last)
    ensures PassedSet(rows, i, Some(last)) == PassedSet(rows, i, after) + Span(rows, ALL[i], after, last)
    ensures PassedSet(rows, i, after) !! Span(rows, ALL[i], after, last)
  {
  }

  lemma PassedClass(rows: State, i: nat, after: Option<Uuid>)
    requires i < 5 && forall k :: !Ahead(rows, ALL[i], after, k)
    ensures PassedSet(rows, i + 1, None) == PassedSet(rows, i, after)
  {
    forall k | k in rows
      ensures Passed(i + 1, None, k) <==> Passed(i, after, k)
    {
      assert !Ahead(rows, ALL[i], after, k);
    }
  }

  lemma PassedAll(rows: State)
    ensures PassedSet(rows, 5, None) == rows.Keys && PassedSet(rows, 0, None) == {}
  {
  }

  /** How far a rotation without other writers has come. */
  ghost predicate Progress(w: World, start: State, now: State, passed: set<Key>, changed: nat, kept: nat) {
    && ResealStep(w, start, now)
    && (forall k | k in start && k in passed :: Active(w, now[k]))
    && (forall k | k in start && (k !in passed || Active(w, start[k])) :: now[k] == start[k])
    && |passed| == changed + kept && |Inactive(w, start, passed)| == changed
  }

  lemma ResealTransitive(w: World, a: State, b: State, c: State)
    requires ResealStep(w, a, b) && ResealStep(w, b, c)
    ensures ResealStep(w, a, c)
  {
    hide KeyId, Opened;
    forall k | k in a
      ensures ResealRow(w, k, a[k], c[k])
    {
      assert ResealRow(w, k, a[k], b[k]) && ResealRow(w, k, b[k], c[k]);
    }
  }

  lemma ProgressBatch(w: World, start: State, now: State, next: State, passed: set<Key>, changed: nat, kept: nat,
                      kind: SecretClass, from: Option<Uuid>, last: Uuid, listed: nat, moved: nat)
    requires Progress(w, start, now, passed, changed, kept) && BatchDone(w, now, next, kind, from, last, listed, moved)
    requires passed !! Span(now, kind, from, last) && passed <= start.Keys
    ensures moved <= listed
    ensures Progress(w, start, next, passed + Span(now, kind, from, last), changed + moved, kept + listed - moved)
  {
    hide KeyId, Opened, Span, Active, ResealRow;
    var span := Span(now, kind, from, last);
    SpanInside(now, kind, from, last);
    ResealTransitive(w, start, now, next);
    assert forall k | k in span :: now[k] == start[k];
    assert Inactive(w, start, passed + span) == Inactive(w, start, passed) + Inactive(w, now, span);
    assert Inactive(w, start, passed) !! Inactive(w, now, span);
    assert |Inactive(w, start, passed + span)| == changed + moved;
    assert |passed + span| == |passed| + |span|;
    SubsetSmaller(Inactive(w, now, span), span);
  }

  lemma {:induction false} SubsetSmaller(a: set<Key>, b: set<Key>)
    requires a <= b
    ensures |a| <= |b|
  {
    assert b == a + (b - a);
  }

  /** What success means when nobody else writes. */
  ghost predicate FullyRotated(w: World, before: State, after: State, changed: nat, kept: nat) {
    && ResealStep(w, before, after)
    && (forall k | k in after :: Active(w, after[k]))
    && (forall k | k in before && Active(w, before[k]) :: after[k] == before[k])
    && changed + kept == |after| && changed == |Inactive(w, before, before.Keys)|
  }

  lemma ProgressEnds(w: World, start: State, now: State, changed: nat, kept: nat)
    requires Progress(w, start, now, start.Keys, changed, kept)
    ensures FullyRotated(w, start, now, changed, kept)
  {
    hide KeyId, Opened, Active, ResealRow;
    assert |now| == |now.Keys| && |start| == |start.Keys|;
  }

  /** Rotating what is already under the active key changes nothing. */
  lemma RotatedIsStable(w: World, before: State, after: State, changed: nat, kept: nat)
    requires FullyRotated(w, before, after, changed, kept) && forall k | k in before :: Active(w, before[k])
    ensures after == before && changed == 0
  {
    hide Active, ResealRow;
    assert Inactive(w, before, before.Keys) == {};
  }

  lemma ResealKeepsOpening(w: World, before: State, after: State)
    requires ResealStep(w, before, after) && AllOpen(w, before)
    ensures AllOpen(w, after)
  {
    hide KeyId, Open;
    forall k | k in after
      ensures Opens(w, k, after[k])
    {
      assert ResealRow(w, k, before[k], after[k]) && Opens(w, k, before[k]);
      assert Opened(w.crypto, w.ring, before[k], w.contexts(k)) == Opened(w.crypto, w.ring, after[k], w.contexts(k));
    }
  }

  // ---------------------------------------------------------------- the audit's count

  ghost function Closed(w: World, rows: State, keys: set<Key>): set<Key> {
    set k | k in keys && k in rows && !Opens(w, k, rows[k])
  }

  lemma ClosedSnoc(w: World, rows: State, keys: seq<Key>, n: nat)
    requires n < |keys| && keys[n] in rows && Distinct(keys)
    ensures Closed(w, rows, ToSet(keys[..n + 1]))
         == Closed(w, rows, ToSet(keys[..n])) + (if Opens(w, keys[n], rows[keys[n]]) then {} else {keys[n]})
    ensures keys[n] !in Closed(w, rows, ToSet(keys[..n]))
  {
    hide Opens;
    assert keys[..n + 1] == keys[..n] + [keys[n]];
  }

  lemma ClosedUnion(w: World, rows: State, a: set<Key>, b: set<Key>)
    requires a !! b
    ensures |Closed(w, rows, a + b)| == |Closed(w, rows, a)| + |Closed(w, rows, b)|
  {
    hide Opens;
    assert Closed(w, rows, a + b) == Closed(w, rows, a) + Closed(w, rows, b);
    assert Closed(w, rows, a) !! Closed(w, rows, b);
  }

  lemma NoneClosed(w: World, rows: State)
    ensures |Closed(w, rows, rows.Keys)| == 0 <==> AllOpen(w, rows)
  {
    hide Opens;
    if |Closed(w, rows, rows.Keys)| == 0 {
      forall k | k in rows
        ensures Opens(w, k, rows[k])
      {
        assert k !in Closed(w, rows, rows.Keys);
      }
    }
    if AllOpen(w, rows) {
      assert Closed(w, rows, rows.Keys) == {};
    }
  }

  /** The rows read, with the values they had. */
  ghost predicate Copies(rows: State, keys: seq<Key>, page: seq<Row>) {
    |page| == |keys| && forall i | 0 <= i < |page| :: keys[i] in rows && page[i] == Row(keys[i], rows[keys[i]])
  }

  /** How many rows of a page do not open. */
  method CountClosed(w: World, page: seq<Row>, ghost rows: State, ghost keys: seq<Key>) returns (failed: nat)
    requires Distinct(keys) && Copies(rows, keys, page)
    ensures failed == |Closed(w, rows, ToSet(keys))|
  {
    hide Opens;
    failed := 0;
    for n := 0 to |page|
      invariant failed == |Closed(w, rows, ToSet(keys[..n]))|
    {
      ClosedSnoc(w, rows, keys, n);
      if !Opens(w, page[n].key, page[n].stored) {
        failed := failed + 1;
      }
    }
    assert keys[..|page|] == keys;
  }

  /** The inactive ones of the first `n` rows have been written. */
  ghost predicate Moved(w: World, rows: State, keys: seq<Key>, n: nat, own: map<Key, string>, changed: nat)
    requires n <= |keys|
  {
    own.Keys == Inactive(w, rows, ToSet(keys[..n])) && |own| == changed
  }

  lemma NoneMoved(w: World, rows: State, keys: seq<Key>)
    ensures Moved(w, rows, keys, 0, map[], 0)
  {
    EmptyInactive(w, rows, keys);
  }

  lemma AllMoved(w: World, rows: State, keys: seq<Key>, own: map<Key, string>, changed: nat)
    requires Moved(w, rows, keys, |keys|, own, changed)
    ensures own.Keys == Inactive(w, rows, ToSet(keys)) && |own| == changed
  {
    assert keys[..|keys|] == keys;
  }

  lemma MovedOne(w: World, rows: State, keys: seq<Key>, n: nat, mine: map<Key, string>, own: map<Key, string>, changed: nat, moved: bool, fine: bool)
    requires n < |keys| && keys[n] in rows && Distinct(keys) && Moved(w, rows, keys, n, mine, changed)
    requires fine ==> moved == !Active(w, rows[keys[n]])
    requires fine && !moved ==> own == mine
    requires fine && moved ==> own.Keys == mine.Keys + {keys[n]} && |own| == |mine| + 1
    ensures fine ==> Moved(w, rows, keys, n + 1, own, if moved then changed + 1 else changed)
    ensures keys[n] !in mine
  {
    hide Active, Inactive, ToSet, Distinct;
    InactiveSnoc(w, rows, keys, n);
  }

  lemma CopiesAre(rows: State, keys: seq<Key>, page: seq<Row>)
    requires Copies(rows, keys, page)
    ensures |page| == |keys|
  {
  }

  lemma CopyAt(w: World, rows: State, keys: seq<Key>, page: seq<Row>, n: nat)
    requires Copies(rows, keys, page) && n < |page|
    ensures |page| == |keys| && keys[n] in rows && page[n] == Row(keys[n], rows[keys[n]])
    ensures AllOpen(w, rows) ==> Opens(w, page[n].key, page[n].stored)
  {
    hide Opens;
  }

  /** Since `was`, the rotation itself has committed nothing. */
  ghost predicate OthersOnly(was: seq<Step>, now: seq<Step>) {
    |was| <= |now| && now[..|was|] == was && forall n | |was| <= n < |now| :: now[n].Others?
  }

  /** The log only grows. */
  ghost predicate Extends(was: seq<Step>, now: seq<Step>) {
    was <= now
  }

  lemma ExtendsJoin(a: seq<Step>, b: seq<Step>, c: seq<Step>)
    requires Extends(a, b) && Extends(b, c)
    ensures Extends(a, c)
  {
  }

  lemma OthersExtend(a: seq<Step>, b: seq<Step>)
    requires OthersOnly(a, b)
    ensures Extends(a, b)
  {
  }

  lemma OthersSnoc(was: seq<Step>, log: seq<Step>, step: Step)
    requires OthersOnly(was, log) && step.Others?
    ensures OthersOnly(was, log + [step])
  {
    assert (log + [step])[..|was|] == log[..|was|];
  }

  lemma OthersJoin(a: seq<Step>, b: seq<Step>, c: seq<Step>)
    requires OthersOnly(a, b) && OthersOnly(b, c)
    ensures OthersOnly(a, c)
  {
    assert c[..|a|] == b[..|a|];
    forall n | |a| <= n < |c|
      ensures c[n].Others?
    {
      if n < |b| {
        assert c[n] == c[..|b|][n] == b[n];
      }
    }
  }

  // ---------------------------------------------------------------- other writers

  /** What was committed after `was`. */
  ghost function Since(was: seq<Step>, now: seq<Step>): seq<Step> {
    if Extends(was, now) then now[|was|..] else []
  }

  lemma SinceJoin(a: seq<Step>, b: seq<Step>, c: seq<Step>)
    requires Extends(a, b) && Extends(b, c)
    ensures Extends(a, c) && Since(a, c) == Since(a, b) + Since(b, c)
  {
  }

  lemma SinceList(was: seq<Step>, step: Step, now: seq<Step>)
    requires Extends(was + [step], now)
    ensures Since(was, now) == [step] + Since(was + [step], now)
  {
  }

  /** The new part of a history is a history of its own. */
  lemma {:induction false} HistorySince(w: World, initial: State, was: seq<Step>, start: State, log: seq<Step>, now: State)
    requires Extends(was, log) && History(w, initial, was, start) && History(w, initial, log, now)
    ensures History(w, start, Since(was, log), now)
    decreases |log|
  {
    hide ResealStep;
    if was == log {
      assert Since(was, log) == [];
    } else {
      var n := |log| - 1;
      HistorySince(w, initial, was, start, log[..n], log[n].before);
      HistorySnoc(w, start, Since(was, log[..n]), log[n]);
      assert Since(was, log) == Since(was, log[..n]) + [log[n]];
    }
  }

  /** The row, if there is one, is under the active key. */
  ghost predicate Current(w: World, rows: State, k: Key) {
    k in rows ==> Active(w, rows[k])
  }

  ghost predicate WritesActive(w: World, step: Step, k: Key) {
    k in step.after && !(k in step.before && step.after[k] == step.before[k]) ==> Active(w, step.after[k])
  }

  /** Whatever other writers store in the row is sealed under the active key; they may also delete it. */
  ghost predicate OthersWriteActive(w: World, log: seq<Step>, k: Key) {
    forall n | 0 <= n < |log| && log[n].Others? :: WritesActive(w, log[n], k)
  }

  lemma WriteActiveSplits(w: World, a: seq<Step>, b: seq<Step>, k: Key)
    requires OthersWriteActive(w, a + b, k)
    ensures OthersWriteActive(w, a, k) && OthersWriteActive(w, b, k)
  {
    hide WritesActive;
    assert forall n | 0 <= n < |a| :: a[n] == (a + b)[n];
    assert forall n | 0 <= n < |b| :: b[n] == (a + b)[|a| + n];
  }

  /** A row under the active key stays so. */
  lemma {:induction false} CurrentStays(w: World, start: State, log: seq<Step>, now: State, k: Key)
    requires History(w, start, log, now) && OthersWriteActive(w, log, k) && Current(w, start, k)
    ensures Current(w, now, k)
    decreases |log|
  {
    hide KeyId, Opened;
    if log != [] {
      var n := |log| - 1;
      assert forall m | 0 <= m < n :: log[..n][m] == log[m];
      CurrentStays(w, start, log[..n], log[n].before, k);
      if log[n].Rotated? {
        if k in log[n].before {
          assert ResealRow(w, k, log[n].before[k], log[n].after[k]);
        }
      } else {
        assert WritesActive(w, log[n], k);
      }
    }
  }

  /** A row the others spare is one they write nothing else in. */
  lemma {:induction false} SparedWritesActive(w: World, start: State, log: seq<Step>, now: State, k: Key)
    requires History(w, start, log, now) && OthersSpare(log, k) && k in start
    ensures k in now && OthersWriteActive(w, log, k)
    decreases |log|
  {
    hide KeyId, Opened;
    if log != [] {
      var n := |log| - 1;
      assert forall m | 0 <= m < n :: log[..n][m] == log[m];
      SparedWritesActive(w, start, log[..n], log[n].before, k);
    }
  }

  /** Every row the cursor has passed is under the active key, unless other writers have put it under another one since. */
  ghost predicate Settled(w: World, log: seq<Step>, rows: State, i: nat, after: Option<Uuid>) {
    forall k | Passed(i, after, k) && OthersWriteActive(w, log, k) :: Current(w, rows, k)
  }

  lemma SettledStarts(w: World, log: seq<Step>, rows: State)
    ensures Settled(w, log, rows, 0, None)
  {
  }

  lemma SettledClass(w: World, log: seq<Step>, rows: State, i: nat, after: Option<Uuid>)
    requires i < 5 && Settled(w, log, rows, i, after) && forall k :: !Ahead(rows, ALL[i], after, k)
    ensures Settled(w, log, rows, i + 1, None)
  {
    hide Active, OthersWriteActive;
    forall k | Passed(i + 1, None, k) && OthersWriteActive(w, log, k)
      ensures Current(w, rows, k)
    {
      assert !Ahead(rows, ALL[i], after, k);
    }
  }

  /** The rows between the cursor and `last`, after a batch. */
  ghost predicate SpanSettled(w: World, log: seq<Step>, rows: State, kind: SecretClass, after: Option<Uuid>, last: Uuid) {
    forall k: Key | k.kind == kind && After(after, k.id) && k.id <= last && OthersWriteActive(w, log, k) :: Current(w, rows, k)
  }

  lemma {:induction false} SettledKept(w: World, log: seq<Step>, rows: State, more: seq<Step>, next: State, i: nat, after: Option<Uuid>)
    requires Settled(w, log, rows, i, after) && History(w, rows, more, next)
    ensures Settled(w, log + more, next, i, after)
  {
    hide Active, OthersWriteActive, History, Passed, Current;
    forall k | Passed(i, after, k) && OthersWriteActive(w, log + more, k)
      ensures Current(w, next, k)
    {
      WriteActiveSplits(w, log, more, k);
      CurrentStays(w, rows, more, next, k);
    }
  }

  lemma SettledGrows(w: World, log: seq<Step>, more: seq<Step>, rows: State, i: nat, after: Option<Uuid>, last: Uuid)
    requires i < 5 && Settled(w, log + more, rows, i, after) && SpanSettled(w, more, rows, ALL[i], after, last)
    ensures Settled(w, log + more, rows, i, Some(last))
  {
    hide Active, OthersWriteActive, Current;
    forall k | Passed(i, Some(last), k) && OthersWriteActive(w, log + more, k)
      ensures Current(w, rows, k)
    {
      WriteActiveSplits(w, log, more, k);
      if !Passed(i, after, k) {
        assert k.kind == ALL[i] && After(after, k.id) && k.id <= last;
      }
    }
  }

  /** What success means beside other writers: a row is under another key only if one of them put it there. */
  ghost predicate RotatedBesideOthers(w: World, before: State, log: seq<Step>, after: State) {
    && (forall k | OthersWriteActive(w, log, k) :: Current(w, after, k))
    && (forall k | k in before && OthersSpare(log, k) :: k in after && Active(w, after[k])
          && Opened(w.crypto, w.ring, after[k], w.contexts(k)) == Opened(w.crypto, w.ring, before[k], w.contexts(k)))
  }

  lemma {:induction false} SettledEnds(w: World, before: State, log: seq<Step>, after: State)
    requires Settled(w, log, after, 5, None) && History(w, before, log, after)
    ensures RotatedBesideOthers(w, before, log, after)
  {
    hide Active, OthersWriteActive, History, OthersSpare, Opened;
    assert forall k :: Passed(5, None, k);
    forall k | k in before && OthersSpare(log, k)
      ensures k in after && Active(w, after[k]) && Opened(w.crypto, w.ring, after[k], w.contexts(k)) == Opened(w.crypto, w.ring, before[k], w.contexts(k))
    {
      SparedWritesActive(w, before, log, after, k);
      PlaintextSurvives(w, before, log, after, k);
      assert Current(w, after, k);
    }
  }

  /** The first `n` rows of a page are under the active key or about to be. */
  ghost predicate Written(w: World, page: seq<Row>, n: nat, own: map<Key, string>)
    requires n <= |page|
  {
    forall i | 0 <= i < n :: Active(w, page[i].stored) || page[i].key in own
  }

  lemma NoneWritten(w: World, page: seq<Row>, own: map<Key, string>)
    ensures Written(w, page, 0, own)
  {
  }

  lemma WrittenOne(w: World, page: seq<Row>, n: nat, mine: map<Key, string>, own: map<Key, string>)
    requires n < |page| && Written(w, page, n, mine) && mine.Keys <= own.Keys
    requires Active(w, page[n].stored) || page[n].key in own
    ensures Written(w, page, n + 1, own)
  {
    hide Active;
  }

  ghost predicate ActiveIn(w: World, rows: State, own: map<Key, string>) {
    forall k | k in own :: k in rows && Active(w, rows[k])
  }

  /** The writes of a committed transaction are in place. */
  lemma OverlayIsActive(w: World, rows: State, own: map<Key, string>)
    requires OwnReseals(w, rows, own)
    ensures ActiveIn(w, Overlay(rows, own), own)
  {
    hide KeyId, Opened;
    forall k | k in own
      ensures k in Overlay(rows, own) && Active(w, Overlay(rows, own)[k])
    {
      assert Reseals(w, k, rows[k], own[k]);
    }
  }

  /** A page listed, written and committed. */
  lemma {:induction false} PageSettles(w: World, listed: State, kind: SecretClass, after: Option<Uuid>, keys: seq<Key>, page: seq<Row>, own: map<Key, string>, seen: Step, log: seq<Step>, now: State)
    requires Page(listed, kind, after, keys) && Copies(listed, keys, page) && page != []
    requires Written(w, page, |page|, own) && ActiveIn(w, now, own) && History(w, listed, log, now)
    ensures SpanSettled(w, [seen] + log, now, kind, after, page[|page| - 1].key.id)
  {
    hide Active, OthersWriteActive, History, After, Page;
    var last := page[|page| - 1].key.id;
    PageIsSpan(listed, kind, after, keys);
    forall k: Key | k.kind == kind && After(after, k.id) && k.id <= last && OthersWriteActive(w, [seen] + log, k)
      ensures Current(w, now, k)
    {
      WriteActiveSplits(w, [seen], log, k);
      if k in listed {
        assert k in Span(listed, kind, after, last);
        var i :| 0 <= i < |keys| && keys[i] == k;
        assert page[i] == Row(k, listed[k]);
      }
      if Current(w, listed, k) {
        CurrentStays(w, listed, log, now, k);
      }
    }
  }

  lemma NonceFits(w: World, n: nat)
    requires WorldOk(w)
    ensures |w.nonces(n)| == NONCE_LEN
  {
  }

  lemma PageIsDistinct(rows: State, kind: SecretClass, after: Option<Uuid>, keys: seq<Key>)
    requires Page(rows, kind, after, keys)
    ensures Distinct(keys)
    ensures forall i | 0 <= i < |keys| :: keys[i] in rows && After(after, keys[i].id)
    ensures keys == [] ==> forall k :: !Ahead(rows, kind, after, k)
  {
    assert forall i | 0 <= i < |keys| :: Ahead(rows, kind, after, keys[i]);
  }

  // ---------------------------------------------------------------- the database

  /** The cursor's distance to the end of the identities. */
  function Remaining(after: Option<Uuid>): nat {
    match after
    case None => 0x1_0000_0000_0000_0000_0000_0000_0000_0000
    case Some(id) => 0x1_0000_0000_0000_0000_0000_0000_0000_0000 - 1 - id
  }

  datatype Row = Row(key: Key, stored: string)

  class Database {
    const w: World
    const initial: State
    /** Committed rows. */
    var rows: State
    /** This maintenance transaction's own writes; their rows are locked. */
    var own: map<Key, string>
    /** Database calls made so far. */
    var moment: nat
    ghost var log: seq<Step>

    ghost predicate Valid()
      reads this
    {
      WorldOk(w) && OwnReseals(w, rows, own) && History(w, initial, log, rows)
    }

    constructor (w: World, rows: State)
      requires WorldOk(w)
      ensures Valid() && this.w == w && this.rows == rows && initial == rows && own == map[] && log == []
    {
      this.w, this.rows, initial, own, moment, log := w, rows, rows, map[], 0, [];
    }

    /** What others commit before the next call of ours. */
    method Interleave() returns (fault: Fault)
      requires Valid()
      modifies this
      ensures Valid() && own == old(own)
      ensures rows == Apply(old(rows), w.schedule(old(moment)), own.Keys)
      ensures log == old(log) + [Others(old(rows), rows)]
      ensures fault == w.faults(old(moment))
      ensures Quiet(w) ==> rows == old(rows)
      ensures NoFaults(w) ==> fault == Fine
    {
      hide WorldOk, Reseals, ResealStep;
      var edits := w.schedule(moment);
      forall k | k in own
        ensures k in Apply(rows, edits, own.Keys) && Apply(rows, edits, own.Keys)[k] == rows[k]
      {
        ApplyKeepsLocked(rows, edits, own.Keys, k);
      }
      var next := Apply(rows, edits, own.Keys);
      HistorySnoc(w, initial, log, Others(rows, next));
      log := log + [Others(rows, next)];
      rows := next;
      fault := w.faults(moment);
      moment := moment + 1;
    }

    /** `list`: the next page, as committed. */
    method List(kind: SecretClass, after: Option<Uuid>) returns (ok: bool, page: seq<Row>, ghost keys: seq<Key>)
      requires Valid()
      modifies this
      ensures Valid() && own == old(own) && log == old(log) + [Others(old(rows), rows)] && Extends(old(log), log)
      ensures Quiet(w) ==> rows == old(rows)
      ensures NoFaults(w) ==> ok
      ensures ok ==> Page(rows, kind, after, keys) && Copies(rows, keys, page)
    {
      hide WorldOk, OwnReseals, History, Apply;
      var fault := Interleave();
      ok, page := fault == Fine, [];
      keys := [];
      if ok {
        var found := SelectPage(rows, kind, after);
        assert forall i | 0 <= i < |found| :: Ahead(rows, kind, after, found[i]);
        keys := found;
        var now := rows;
        page := seq(|found|, i requires 0 <= i < |found| && found[i] in now => Row(found[i], now[found[i]]));
      }
    }

    /** `replace`: compare-and-set on the stored value; the row stays locked until the transaction ends. */
    method Replace(key: Key, expected: string, sealed: string) returns (ok: bool, replaced: bool)
      requires Valid() && Reseals(w, key, expected, sealed)
      modifies this
      ensures Valid() && log == old(log) + [Others(old(rows), rows)] && Extends(old(log), log)
      ensures own == if ok && replaced then old(own)[key := sealed] else old(own)
      ensures ok && replaced ==> key in rows && key !in old(own) && rows[key] == expected
      ensures Quiet(w) ==> rows == old(rows)
      ensures NoFaults(w) ==> ok
      ensures ok && key in rows && rows[key] == expected && key !in old(own) ==> replaced
    {
      hide WorldOk, History, Apply;
      var fault := Interleave();
      ok, replaced := fault == Fine, false;
      if ok && key in rows {
        var current := if key in own then own[key] else rows[key];
        if current == expected {
          own := own[key := sealed];
          replaced := true;
        }
      }
    }

    /** A commit makes the writes visible at once, or not at all; its answer may get lost. */
    method Commit() returns (ok: bool)
      requires Valid()
      modifies this
      ensures Valid() && own == map[] && Extends(old(log), log)
      ensures Quiet(w) && ok ==> rows == Overlay(old(rows), old(own))
      ensures Quiet(w) && !ok ==> rows == old(rows) || rows == Overlay(old(rows), old(own))
      ensures old(own) == map[] ==> log == old(log) + [Others(old(rows), rows)]
      ensures ok ==> ActiveIn(w, rows, old(own))
      ensures NoFaults(w) ==> ok
    {
      hide WorldOk, Apply, OwnReseals, History, Overlay, ResealStep, Active;
      var fault := Interleave();
      EmptyOverlay(w, rows, own);
      if fault != Broken && own != map[] {
        var next := Overlay(rows, own);
        OverlayReseals(w, rows, own);
        OverlayIsActive(w, rows, own);
        HistorySnoc(w, initial, log, Rotated(rows, next));
        log := log + [Rotated(rows, next)];
        rows := next;
      }
      own := map[];
      EmptyOverlay(w, rows, own);
      ok := fault == Fine;
    }

    // -------------------------------------------------------------- the read-only pass

    method AuditPage(kind: SecretClass, after: Option<Uuid>) returns (ok: bool, last: Option<Uuid>, failed: nat)
      requires Valid() && own == map[]
      modifies this
      ensures Valid() && own == map[] && OthersOnly(old(log), log)
      ensures Quiet(w) ==> rows == old(rows)
      ensures NoFaults(w) ==> ok
      ensures ok && last.Some? ==> After(after, last.value)
      ensures Quiet(w) && ok && last.None? ==> failed == 0 && forall k :: !Ahead(rows, kind, after, k)
      ensures Quiet(w) && ok && last.Some? ==> failed == |Closed(w, rows, Span(rows, kind, after, last.value))|
    {
      hide WorldOk, OwnReseals, History, Apply, Overlay, Page, Ahead, After, Opens, OthersOnly, Quiet, NoFaults;
      OthersStart(log);
      ok, last, failed := false, None, 0;
      var listed, page, keys := List(kind, after);
      OthersSnoc(old(log), old(log), Others(old(rows), rows));
      if !listed { return; }
      PageIsDistinct(rows, kind, after, keys);
      ghost var seen, was := rows, log;
      EmptyOverlay(w, rows, own);
      var committed := Commit();
      OthersSnoc(old(log), was, Others(seen, rows));
      if !committed { return; }
      ok := true;
      if page == [] { return; }
      last := Some(page[|page| - 1].key.id);
      failed := CountClosed(w, page, seen, keys);
      PageIsSpan(seen, kind, after, keys);
    }

    /** `audit_sealed`: how many values do not open; nothing is written. */
    method AuditSealed() returns (ok: bool, failed: nat)
      requires Valid() && own == map[]
      modifies this
      ensures Valid() && own == map[] && OthersOnly(old(log), log)
      ensures Quiet(w) ==> rows == old(rows)
      ensures NoFaults(w) ==> ok
      ensures Quiet(w) && ok ==> failed == |Closed(w, rows, rows.Keys)|
    {
      hide WorldOk, OwnReseals, History, Apply, Ahead, After, Passed, PassedSet, Closed, OthersOnly, Quiet, NoFaults, Span;
      ok, failed := false, 0;
      OthersStart(log);
      PassedAll(rows);
      NothingClosed(w, rows);
      for i := 0 to |ALL|
        invariant Valid() && own == map[] && OthersOnly(old(log), log)
        invariant Quiet(w) ==> rows == old(rows) && failed == |Closed(w, rows, PassedSet(rows, i, None))|
      {
        var after: Option<Uuid> := None;
        var more := true;
        while more
          invariant Valid() && own == map[] && OthersOnly(old(log), log)
          invariant Quiet(w) ==> rows == old(rows)
          invariant Quiet(w) ==> failed == |Closed(w, rows, PassedSet(rows, if more then i else i + 1, after))|
          invariant !more ==> after == None
          decreases more, Remaining(after)
        {
          ghost var was := log;
          var fine, last, n := AuditPage(ALL[i], after);
          OthersJoin(old(log), was, log);
          if !fine { return; }
          match last
          case None =>
            if Quiet(w) {
              PassedClass(rows, i, after);
            }
            after, more := None, false;
          case Some(id) =>
            if Quiet(w) {
              PassedGrows(rows, i, after, id);
              ClosedUnion(w, rows, PassedSet(rows, i, after), Span(rows, ALL[i], after, id));
            }
            CursorMoves(after, id);
            failed := failed + n;
            after := last;
        }
      }
      PassedAll(rows);
      ok := true;
    }

    // -------------------------------------------------------------- re-sealing

    /** One row of a batch: open it, and unless it is under the active key already, seal it anew and replace it. */
    method RotateRow(row: Row) returns (failure: Option<Outcome>, moved: bool)
      requires Valid()
      modifies this
      ensures Valid() && Extends(old(log), log)
      ensures failure.Some? ==> !failure.value.Rotation? && !failure.value.Preflight?
      ensures failure.None? ==> moved == !Active(w, row.stored)
      ensures failure.None? && !moved ==> own == old(own)
      ensures failure.None? && moved ==> row.key !in old(own) && own.Keys == old(own).Keys + {row.key} && |own| == |old(own)| + 1
      ensures Quiet(w) ==> rows == old(rows)
      ensures Quiet(w) && NoFaults(w) && Opens(w, row.key, row.stored) && row.key in rows && rows[row.key] == row.stored && row.key !in old(own) ==> failure.None?
    {
      hide WorldOk, OwnReseals, History, Apply, KeyId, Open, Seal, Quiet, NoFaults, Reseals, Extends;
      OthersStart(log);
      failure, moved := None, false;
      var plain := Open(w.crypto, w.ring, row.stored, w.contexts(row.key));
      if plain.Err? {
        failure := Some(Unopenable(row.key, plain.error));
        return;
      }
      if !Active(w, row.stored) {
        NonceFits(w, moment);
        SealReseals(w, row.key, row.stored, w.nonces(moment), plain.value);
        var sealed := Seal(w.crypto, w.ring, w.nonces(moment), plain.value, w.contexts(row.key));
        var fine, replaced := Replace(row.key, row.stored, sealed.value);
        if !fine {
          failure := Some(Db);
        } else if !replaced {
          failure := Some(Conflict(row.key));
        } else {
          AddKey(old(own), row.key, sealed.value);
          moved := true;
        }
      }
    }

    /** The rows of a page, one by one; a failure drops the transaction. */
    method RotateRows(page: seq<Row>, ghost keys: seq<Key>) returns (failure: Option<Outcome>, changed: nat)
      requires Valid() && own == map[] && Copies(rows, keys, page) && Distinct(keys)
      modifies this
      ensures Valid() && Extends(old(log), log) && changed <= |page|
      ensures failure.Some? ==> own == map[] && !failure.value.Rotation? && !failure.value.Preflight?
      ensures Quiet(w) ==> rows == old(rows)
      ensures failure.None? ==> Written(w, page, |page|, own)
      ensures Quiet(w) && failure.None? ==> own.Keys == Inactive(w, rows, ToSet(keys)) && |own| == changed
      ensures Quiet(w) && NoFaults(w) && AllOpen(w, old(rows)) ==> failure.None?
    {
      hide WorldOk, OwnReseals, History, Apply, Active, Opens, Quiet, NoFaults, Inactive, Extends, ToSet, Distinct, Copies, AllOpen, Moved, Written;
      failure, changed := None, 0;
      NoneWritten(w, page, own);
      OthersStart(log);
      NoneMoved(w, rows, keys);
      CopiesAre(rows, keys, page);
      for n := 0 to |page|
        invariant Valid() && Extends(old(log), log) && changed <= n && failure.None? && Written(w, page, n, own)
        invariant Quiet(w) ==> rows == old(rows) && Moved(w, old(rows), keys, n, own, changed)
      {
        ghost var was, mine := log, own;
        CopyAt(w, old(rows), keys, page, n);
        var moved;
        failure, moved := RotateRow(page[n]);
        ExtendsJoin(old(log), was, log);
        if Quiet(w) {
          MovedOne(w, old(rows), keys, n, mine, own, changed, moved, failure.None?);
        }
        if failure.Some? {
          own := map[];
          EmptyOverlay(w, rows, own);
          return;
        }
        WrittenOne(w, page, n, mine, own);
        if moved {
          changed := changed + 1;
        }
      }
      if Quiet(w) {
        AllMoved(w, rows, keys, own, changed);
      }
    }

    method RotateBatch(kind: SecretClass, after: Option<Uuid>) returns (r: Batch)
      requires Valid() && own == map[]
      modifies this
      ensures Valid() && own == map[] && Extends(old(log), log)
      ensures r.Done? ==> After(after, r.last) && r.changed <= r.listed
      ensures r.Empty? ==> forall k :: !Ahead(rows, kind, after, k)
      ensures r.Done? ==> SpanSettled(w, Since(old(log), log), rows, kind, after, r.last)
      ensures Quiet(w) && r.Empty? ==> rows == old(rows)
      ensures Quiet(w) && r.Done? ==> BatchDone(w, old(rows), rows, kind, after, r.last, r.listed, r.changed)
      ensures Quiet(w) && NoFaults(w) && AllOpen(w, old(rows)) ==> !r.Failed?
      ensures r.Failed? ==> !r.outcome.Rotation? && !r.outcome.Preflight?
    {
      hide WorldOk, OwnReseals, History, Apply, Overlay, Page, Ahead, After, AllOpen, BatchDone, Quiet, NoFaults, Inactive, Extends, ToSet, Distinct, Since, SpanSettled, Written, ActiveIn, Copies, Opens;
      var listed, page, keys := List(kind, after);
      if !listed { return Failed(Db); }
      PageIsDistinct(rows, kind, after, keys);
      CopiesAre(rows, keys, page);
      if page == [] { return Empty; }
      CopyAt(w, rows, keys, page, |page| - 1);
      ghost var seen, first := rows, log;
      ghost var was := log;
      var failure, changed := RotateRows(page, keys);
      ExtendsJoin(old(log), was, log);
      if failure.Some? { return Failed(failure.value); }
      if Quiet(w) {
        OverlayIsDone(w, rows, kind, after, keys, own);
      }
      was := log;
      ghost var mine := own;
      var committed := Commit();
      ExtendsJoin(old(log), was, log);
      ExtendsJoin(first, was, log);
      if committed {
        HistorySince(w, initial, first, seen, log, rows);
        PageSettles(w, seen, kind, after, keys, page, mine, Others(old(rows), seen), Since(first, log), rows);
        SinceList(old(log), Others(old(rows), seen), log);
      }
      r := if committed then Done(page[|page| - 1].key.id, |page|, changed) else Failed(Db);
    }

    /** `rotate_secrets`. */
    method Rotate() returns (r: Outcome)
      requires Valid() && own == map[]
      modifies this
      ensures Valid() && own == map[] && Extends(old(log), log)
      ensures r.Preflight? ==> r.failed > 0 && OthersOnly(old(log), log)
      ensures r.Rotation? ==> RotatedBesideOthers(w, old(rows), Since(old(log), log), rows)
      ensures Quiet(w) && r.Preflight? ==> rows == old(rows) && r.failed == |Closed(w, rows, rows.Keys)|
      ensures Quiet(w) && r.Rotation? ==> FullyRotated(w, old(rows), rows, r.changed, r.kept)
      ensures Quiet(w) && NoFaults(w) ==> if AllOpen(w, old(rows)) then r.Rotation? else r.Preflight?
    {
      hide WorldOk, OwnReseals, History, Apply, Ahead, After, Passed, PassedSet, Closed, OthersOnly, Quiet, NoFaults, Span, Progress, BatchDone, FullyRotated, AllOpen, Extends, Since, Settled, SpanSettled, RotatedBesideOthers;
      var audited, failed := AuditSealed();
      OthersExtend(old(log), log);
      if !audited { return Db; }
      NoneClosed(w, rows);
      if failed > 0 { return Preflight(failed); }
      var changed: nat, kept: nat := 0, 0;
      ghost var start := rows;
      PassedAll(start);
      ProgressStarts(w, start);
      SettledStarts(w, Since(old(log), log), rows);
      for i := 0 to |ALL|
        invariant Valid() && own == map[] && Extends(old(log), log)
        invariant Settled(w, Since(old(log), log), rows, i, None)
        invariant Quiet(w) ==> Progress(w, start, rows, PassedSet(start, i, None), changed, kept)
        invariant Quiet(w) && NoFaults(w) ==> AllOpen(w, rows)
      {
        var after: Option<Uuid> := None;
        var more := true;
        while more
          invariant Valid() && own == map[] && Extends(old(log), log)
          invariant Settled(w, Since(old(log), log), rows, if more then i else i + 1, after)
          invariant Quiet(w) ==> Progress(w, start, rows, PassedSet(start, if more then i else i + 1, after), changed, kept)
          invariant Quiet(w) && NoFaults(w) ==> AllOpen(w, rows)
          invariant !more ==> after == None
          decreases more, Remaining(after)
        {
          ghost var now, was := rows, log;
          var batch := RotateBatch(ALL[i], after);
          SinceJoin(old(log), was, log);
          HistorySince(w, initial, was, now, log, rows);
          SettledKept(w, Since(old(log), was), now, Since(was, log), rows, i, after);
          match batch
          case Failed(outcome) => return outcome;
          case Empty =>
            SettledClass(w, Since(old(log), log), rows, i, after);
            if Quiet(w) {
              ProgressClass(w, start, rows, i, after, changed, kept);
            }
            after, more := None, false;
          case Done(last, listed, moved) =>
            SettledGrows(w, Since(old(log), was), Since(was, log), rows, i, after, last);
            if Quiet(w) {
              ProgressGrows(w, start, now, rows, i, after, changed, kept, last, listed, moved);
              BatchKeepsOpening(w, now, rows, ALL[i], after, last, listed, moved);
            }
            CursorMoves(after, last);
            changed, kept := changed + moved, kept + listed - moved;
            after := Some(last);
        }
      }
      PassedAll(start);
      if Quiet(w) {
        ProgressEnds(w, start, rows, changed, kept);
      }
      HistorySince(w, initial, old(log), old(rows), log, rows);
      SettledEnds(w, old(rows), Since(old(log), log), rows);
      r := Rotation(changed, kept);
    }

    /** A second rotation finds nothing to do. */
    method RotateTwice() returns (first: Outcome, second: Outcome)
      requires Valid() && own == map[] && Quiet(w)
      modifies this
      ensures first.Rotation? && second.Rotation? ==>
        second.changed == 0 && second.kept == first.changed + first.kept && FullyRotated(w, old(rows), rows, first.changed, first.kept)
    {
      hide WorldOk, OwnReseals, History, ResealRow, Active, Inactive, Closed, OthersOnly, AllOpen, NoFaults;
      first := Rotate();
      ghost var middle := rows;
      second := Rotate();
      if first.Rotation? && second.Rotation? {
        RotatedIsStable(w, middle, rows, second.changed, second.kept);
      }
    }
  }

  lemma OthersStart(log: seq<Step>)
    ensures OthersOnly(log, log) && Extends(log, log)
  {
  }

  lemma NothingClosed(w: World, rows: State)
    ensures Closed(w, rows, {}) == {}
  {
  }

  lemma EmptyInactive(w: World, rows: State, keys: seq<Key>)
    ensures Inactive(w, rows, ToSet(keys[..0])) == {}
  {
  }

  lemma AddKey(own: map<Key, string>, k: Key, v: string)
    requires k !in own
    ensures own[k := v].Keys == own.Keys + {k} && |own[k := v]| == |own| + 1
  {
  }

  lemma CursorMoves(after: Option<Uuid>, id: Uuid)
    requires After(after, id)
    ensures Remaining(Some(id)) < Remaining(after)
  {
  }

  lemma ProgressStarts(w: World, rows: State)
    ensures Progress(w, rows, rows, {}, 0, 0)
  {
    hide Active, Reseals;
    assert Inactive(w, rows, {}) == {};
  }

  lemma ProgressClass(w: World, start: State, now: State, i: nat, after: Option<Uuid>, changed: nat, kept: nat)
    requires i < 5 && Progress(w, start, now, PassedSet(start, i, after), changed, kept) && forall k :: !Ahead(now, ALL[i], after, k)
    ensures Progress(w, start, now, PassedSet(start, i + 1, None), changed, kept)
  {
    hide Active, ResealRow;
    assert start.Keys == now.Keys;
    forall k
      ensures !Ahead(start, ALL[i], after, k)
    {
      assert !Ahead(now, ALL[i], after, k);
    }
    PassedClass(start, i, after);
  }

  lemma ProgressGrows(w: World, start: State, now: State, next: State, i: nat, after: Option<Uuid>, changed: nat, kept: nat, last: Uuid, listed: nat, moved: nat)
    requires i < 5 && After(after, last) && Progress(w, start, now, PassedSet(start, i, after), changed, kept)
    requires BatchDone(w, now, next, ALL[i], after, last, listed, moved)
    ensures moved <= listed && Progress(w, start, next, PassedSet(start, i, Some(last)), changed + moved, kept + listed - moved)
  {
    hide Active, ResealRow, Passed, Inactive, BatchDone;
    assert start.Keys == now.Keys;
    PassedGrows(start, i, after, last);
    assert Span(now, ALL[i], after, last) == Span(start, ALL[i], after, last);
    ProgressBatch(w, start, now, next, PassedSet(start, i, after), changed, kept, ALL[i], after, last, listed, moved);
  }

  lemma BatchKeepsOpening(w: World, now: State, next: State, kind: SecretClass, after: Option<Uuid>, last: Uuid, listed: nat, moved: nat)
    requires BatchDone(w, now, next, kind, after, last, listed, moved)
    ensures AllOpen(w, now) ==> AllOpen(w, next)
  {
    hide AllOpen, ResealStep;
    if AllOpen(w, now) {
      ResealKeepsOpening(w, now, next);
    }
  }
}
