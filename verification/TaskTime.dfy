/**
  * Tracked time in an archive: `validate_task_time`. The source walks six lists once each, keeping
  * sets, maps and flags; here every walk is tied to what the lists must look like as a whole.
  */
module TaskTime {
  import opened Options
  import opened Uuids
  import opened Json

  datatype TimeEntry = TimeEntry(id: Uuid, task: Uuid, user: Uuid, started: string, ended: Option<string>, seconds: Option<int>, note: Option<string>)
  datatype TimerRun = TimerRun(id: Uuid, user: Uuid, task: Uuid, status: string, version: int, started: string, stopped: Option<string>, note: Option<string>)
  datatype TimerSegment = TimerSegment(id: Uuid, run: Uuid, user: Uuid, task: Uuid, started: string, ended: Option<string>, entry: Option<Uuid>)
  datatype LegacyOpen = LegacyOpen(entry: Uuid, user: Uuid, task: Uuid)
  datatype TimerCommand = TimerCommand(request: Uuid, user: Uuid, hash: string, run: Option<Uuid>, created: string)
  datatype TimerAudit = TimerAudit(id: Uuid, user: Uuid, workspace: Option<Uuid>, task: Option<Uuid>, entry: Option<Uuid>,
                                   verb: string, before: Json, after: Json, reason: string, created: string)

  /** The parts of the graph the check reads. `clock` is the RFC 3339 reader, in nanoseconds. */
  datatype Graph = Graph(clock: string -> Option<int>, actor: Uuid, workspace: Uuid, tasks: set<Uuid>,
                         entries: seq<TimeEntry>, runs: seq<TimerRun>, segments: seq<TimerSegment>,
                         legacy: seq<LegacyOpen>, commands: seq<TimerCommand>, audits: seq<TimerAudit>)

  // ---------------------------------------------------------------- records one by one

  const SECOND := 1_000_000_000

  ghost predicate NoteOk(note: Option<string>) {
    note.Some? ==> |note.value| <= 2000
  }

  /** Whole seconds, at least one, rounded down. */
  ghost predicate Lasts(g: Graph, from: string, to: string, seconds: int) {
    && g.clock(from).Some? && g.clock(to).Some? && 1 <= seconds
    && g.clock(from).value + seconds * SECOND <= g.clock(to).value < g.clock(from).value + (seconds + 1) * SECOND
  }

  /** The second instant is not before the first. */
  ghost predicate InOrder(g: Graph, from: string, to: string) {
    g.clock(from).Some? && g.clock(to).Some? && g.clock(from).value <= g.clock(to).value
  }

  /** An entry is open, without end and length, or closed, with both. */
  ghost predicate EntryOk(g: Graph, e: TimeEntry) {
    && e.user == g.actor && e.task in g.tasks && NoteOk(e.note) && g.clock(e.started).Some?
    && (e.ended.None? <==> e.seconds.None?)
    && (e.ended.Some? ==> Lasts(g, e.started, e.ended.value, e.seconds.value))
  }

  /** Running or paused. */
  ghost predicate Unfinished(r: TimerRun) {
    r.stopped.None?
  }

  ghost predicate RunOk(g: Graph, r: TimerRun) {
    && r.user == g.actor && r.task in g.tasks && NoteOk(r.note) && g.clock(r.started).Some? && r.version >= 1
    && r.status in {"running", "paused", "stopped"}
    && (r.status == "stopped" <==> r.stopped.Some?)
    && (r.stopped.Some? ==> InOrder(g, r.started, r.stopped.value))
  }

  ghost predicate SegmentOk(g: Graph, entries: map<Uuid, TimeEntry>, runs: map<Uuid, TimerRun>, s: TimerSegment) {
    && g.clock(s.started).Some? && (s.ended.Some? ==> InOrder(g, s.started, s.ended.value))
    && s.run in runs && s.user == runs[s.run].user && s.task == runs[s.run].task
    && (s.entry.Some? ==> s.ended.Some? && s.entry.value in entries && entries[s.entry.value].task == s.task)
  }

  /** A reservation of an open entry of its task. */
  ghost predicate LegacyOk(g: Graph, entries: map<Uuid, TimeEntry>, l: LegacyOpen) {
    l.user == g.actor && l.entry in entries && entries[l.entry].ended.None? && entries[l.entry].task == l.task
  }

  ghost predicate CommandOk(g: Graph, runs: map<Uuid, TimerRun>, c: TimerCommand) {
    c.user == g.actor && g.clock(c.created).Some? && |c.hash| == 64 && (c.run.Some? ==> c.run.value in runs)
  }

  ghost predicate InTask(a: TimerAudit, owner: Uuid) {
    a.task == None || a.task == Some(owner)
  }

  /** The member is absent or null, or it spells an identity that `ok` holds of. */
  ghost predicate Refers(v: Json, key: string, ok: Uuid -> bool) {
    Get(v, key) == None || Get(v, key) == Some(Null) || exists id :: AsUuid(Get(v, key).value) == Some(id) && ok(id)
  }

  ghost predicate RecordOk(entries: map<Uuid, TimeEntry>, segments: map<Uuid, TimerSegment>, a: TimerAudit, v: Json, record: Uuid) {
    || (Get(v, "kind") == Some(Str("manual")) && record in entries && InTask(a, entries[record].task))
    || (Get(v, "kind") == Some(Str("segment")) && record in segments && InTask(a, segments[record].task))
  }

  ghost predicate AuditedRunOk(runs: map<Uuid, TimerRun>, a: TimerAudit, run: Uuid) {
    run in runs && InTask(a, runs[run].task)
  }

  /** The references of a recorded value: a record of its kind, a run and the entry column, each in the audit's task. */
  ghost predicate SideOk(entries: map<Uuid, TimeEntry>, runs: map<Uuid, TimerRun>, segments: map<Uuid, TimerSegment>, a: TimerAudit, v: Json) {
    v.Obj? ==>
      && Refers(v, "recordId", (id: Uuid) => RecordOk(entries, segments, a, v, id))
      && Refers(v, "runId", (id: Uuid) => AuditedRunOk(runs, a, id))
      && Refers(v, "timeEntryId", (id: Uuid) => a.entry == Some(id))
  }

  ghost predicate AuditOk(g: Graph, entries: map<Uuid, TimeEntry>, runs: map<Uuid, TimerRun>, segments: map<Uuid, TimerSegment>, a: TimerAudit) {
    && a.user == g.actor && g.clock(a.created).Some? && a.verb != "" && 1 <= |a.reason| <= 2000
    && (a.workspace == None || a.workspace == Some(g.workspace) || a.task.Some? || a.entry.Some?)
    && (a.task.Some? ==> a.task.value in g.tasks)
    && (a.entry.Some? ==> a.entry.value in entries && InTask(a, entries[a.entry.value].task))
    && SideOk(entries, runs, segments, a, a.before) && SideOk(entries, runs, segments, a, a.after)
  }

  // ---------------------------------------------------------------- the tests of one record

  /** `validate_dates`: every timestamp that is there must read. */
  predicate Readable(g: Graph, text: Option<string>) {
    match text
    case None => true
    case Some(t) => g.clock(t).Some?
  }

  predicate ShortNote(note: Option<string>) {
    match note
    case None => true
    case Some(n) => |n| <= 2000
  }

  /** Division that drops the fraction, also of negative spans. */
  function Whole(span: int, unit: int): int
    requires unit > 0
  {
    if span >= 0 then span / unit else -(-span / unit)
  }

  method TestEntry(g: Graph, e: TimeEntry) returns (ok: bool)
    ensures ok <==> EntryOk(g, e)
  {
    ok := false;
    if !Readable(g, Some(e.started)) || !Readable(g, e.ended) || e.user != g.actor {
      return;
    }
    var consistent;
    match (e.ended, e.seconds) {
      case (None, None) =>
        consistent := true;
      case (Some(ended), Some(seconds)) =>
        var span := g.clock(ended).value - g.clock(e.started).value;
        consistent := Whole(span, 1_000_000) > 0 && seconds > 0 && seconds == Whole(span, 1_000_000_000);
      case _ =>
        consistent := false;
    }
    ok := e.task in g.tasks && consistent && ShortNote(e.note);
  }

  method TestRun(g: Graph, r: TimerRun) returns (ok: bool)
    ensures ok <==> RunOk(g, r)
  {
    ok := false;
    if !Readable(g, Some(r.started)) || !Readable(g, r.stopped) {
      return;
    }
    var stopped := r.status == "stopped";
    if r.user != g.actor || r.task !in g.tasks || !(r.status == "running" || r.status == "paused" || stopped) || r.version < 1
       || stopped != r.stopped.Some? || (r.stopped.Some? && g.clock(r.stopped.value).value < g.clock(r.started).value) || !ShortNote(r.note) {
      return;
    }
    ok := true;
  }

  method TestSegment(g: Graph, entries: map<Uuid, TimeEntry>, runs: map<Uuid, TimerRun>, s: TimerSegment) returns (ok: bool)
    ensures ok <==> SegmentOk(g, entries, runs, s)
  {
    ok := false;
    if !Readable(g, Some(s.started)) || !Readable(g, s.ended) || s.run !in runs {
      return;
    }
    var run := runs[s.run];
    var endedOk := s.ended.None? || g.clock(s.ended.value).value >= g.clock(s.started).value;
    if s.user != run.user || s.task != run.task || !endedOk
       || (s.entry.Some? && (s.ended.None? || s.entry.value !in entries || entries[s.entry.value].task != s.task)) {
      return;
    }
    ok := true;
  }

  method TestLegacy(g: Graph, entries: map<Uuid, TimeEntry>, l: LegacyOpen) returns (ok: bool)
    ensures ok <==> LegacyOk(g, entries, l)
  {
    if l.entry !in entries {
      return false;
    }
    var entry := entries[l.entry];
    ok := !(l.user != g.actor || entry.ended.Some? || entry.task != l.task);
  }

  method TestCommand(g: Graph, runs: map<Uuid, TimerRun>, c: TimerCommand) returns (ok: bool)
    ensures ok <==> CommandOk(g, runs, c)
  {
    if !Readable(g, Some(c.created)) {
      return false;
    }
    ok := !(c.user != g.actor || |c.hash| != 64 || (c.run.Some? && c.run.value !in runs));
  }

  /** The closure `in_task`. */
  predicate Belongs(a: TimerAudit, owner: Uuid) {
    match a.task
    case None => true
    case Some(task) => task == owner
  }

  /** The closure `id`: no reference, a reference, or a value that spells none. */
  function Member(v: Json, key: string): Option<Option<Uuid>> {
    match Get(v, key)
    case None => Some(None)
    case Some(Null) => Some(None)
    case Some(Str(s)) => (match Parse(s) case None => None case Some(id) => Some(Some(id)))
    case _ => None
  }

  lemma MemberIs(v: Json, key: string, ok: Uuid -> bool)
    ensures Refers(v, key, ok) <==> Member(v, key).Some? && (Member(v, key).value.Some? ==> ok(Member(v, key).value.value))
  {
    hide Parse;
  }

  method TestSide(entries: map<Uuid, TimeEntry>, runs: map<Uuid, TimerRun>, segments: map<Uuid, TimerSegment>, a: TimerAudit, v: Json) returns (ok: bool)
    ensures ok <==> SideOk(entries, runs, segments, a, v)
  {
    hide Member, Refers;
    if !v.Obj? {
      return true;
    }
    ok := false;
    MemberIs(v, "recordId", (id: Uuid) => RecordOk(entries, segments, a, v, id));
    MemberIs(v, "runId", (id: Uuid) => AuditedRunOk(runs, a, id));
    MemberIs(v, "timeEntryId", (id: Uuid) => a.entry == Some(id));
    var record := Member(v, "recordId");
    if record.None? {
      return;
    }
    if record.value.Some? {
      var id := record.value.value;
      var owner := match Get(v, "kind")
        case Some(Str("manual")) => if id in entries then Some(entries[id].task) else None
        case Some(Str("segment")) => if id in segments then Some(segments[id].task) else None
        case _ => None;
      if owner.None? || !Belongs(a, owner.value) {
        return;
      }
    }
    var run := Member(v, "runId");
    if run.None? || (run.value.Some? && !(run.value.value in runs && Belongs(a, runs[run.value.value].task))) {
      return;
    }
    var entry := Member(v, "timeEntryId");
    if entry.None? || (entry.value.Some? && a.entry != entry.value) {
      return;
    }
    ok := true;
  }

  method TestAudit(g: Graph, entries: map<Uuid, TimeEntry>, runs: map<Uuid, TimerRun>, segments: map<Uuid, TimerSegment>, a: TimerAudit) returns (ok: bool)
    ensures ok <==> AuditOk(g, entries, runs, segments, a)
  {
    hide SideOk;
    ok := false;
    if !Readable(g, Some(a.created)) || a.user != g.actor
       || (a.workspace.Some? && a.workspace.value != g.workspace && a.task.None? && a.entry.None?)
       || (a.task.Some? && a.task.value !in g.tasks) || (a.entry.Some? && a.entry.value !in entries)
       || a.verb == "" || !(1 <= |a.reason| <= 2000) {
      return;
    }
    if a.entry.Some? && !Belongs(a, entries[a.entry.value].task) {
      return;
    }
    var before := TestSide(entries, runs, segments, a, a.before);
    if !before {
      return;
    }
    ok := TestSide(entries, runs, segments, a, a.after);
  }

  // ---------------------------------------------------------------- the lists as a whole

  /** Among the first `k` records no key occurs twice. */
  ghost predicate Once<R, K(!new)>(rs: seq<R>, key: R -> Option<K>, k: int) {
    k <= |rs| && forall i, j | 0 <= i < j < k :: key(rs[i]).Some? ==> key(rs[i]) != key(rs[j])
  }

  /** The keys of the first `k` records. */
  ghost predicate Keys<R, K(!new)>(rs: seq<R>, key: R -> Option<K>, k: int, seen: set<K>) {
    && k <= |rs|
    && (forall i | 0 <= i < k && key(rs[i]).Some? :: key(rs[i]).value in seen)
    && (forall x | x in seen :: exists i :: 0 <= i < k && key(rs[i]) == Some(x))
  }

  ghost function Insert<K>(seen: set<K>, x: Option<K>): set<K> {
    if x.Some? then seen + {x.value} else seen
  }

  lemma OnceStep<R, K(!new)>(rs: seq<R>, key: R -> Option<K>, k: nat, seen: set<K>)
    requires k < |rs| && Once(rs, key, k) && Keys(rs, key, k, seen)
    ensures Once(rs, key, k + 1) <==> !(key(rs[k]).Some? && key(rs[k]).value in seen)
    ensures Keys(rs, key, k + 1, Insert(seen, key(rs[k])))
  {
    var x := key(rs[k]);
    if x.Some? && x.value in seen {
      var i :| 0 <= i < k && key(rs[i]) == Some(x.value);
    }
    forall y | y in Insert(seen, x)
      ensures exists i :: 0 <= i < k + 1 && key(rs[i]) == Some(y)
    {
      if y in seen {
        var i :| 0 <= i < k && key(rs[i]) == Some(y);
      }
    }
  }

  lemma OncePrefix<R, K(!new)>(rs: seq<R>, key: R -> Option<K>, k: nat)
    requires k <= |rs| && Once(rs, key, |rs|)
    ensures Once(rs, key, k)
  {
  }

  /** The first `k` records by key. */
  ghost predicate Indexed<R(!new)>(rs: seq<R>, key: R -> Option<Uuid>, k: int, m: map<Uuid, R>) {
    Keys(rs, key, k, m.Keys) && forall i | 0 <= i < k && key(rs[i]).Some? :: m[key(rs[i]).value] == rs[i]
  }

  lemma IndexedStep<R(!new)>(rs: seq<R>, key: R -> Option<Uuid>, k: nat, m: map<Uuid, R>)
    requires k < |rs| && Indexed(rs, key, k, m) && Once(rs, key, k) && key(rs[k]).Some?
    ensures Once(rs, key, k + 1) <==> key(rs[k]).value !in m
    ensures key(rs[k]).value !in m ==> Indexed(rs, key, k + 1, m[key(rs[k]).value := rs[k]])
  {
    OnceStep(rs, key, k, m.Keys);
    var id := key(rs[k]).value;
    if id !in m {
      var next := m[id := rs[k]];
      assert next.Keys == Insert(m.Keys, key(rs[k]));
      forall i | 0 <= i < k + 1 && key(rs[i]).Some?
        ensures key(rs[i]).value in next && next[key(rs[i]).value] == rs[i]
      {
      }
    }
  }

  lemma IndexedUnique<R(!new)>(rs: seq<R>, key: R -> Option<Uuid>, m: map<Uuid, R>, m': map<Uuid, R>)
    requires Indexed(rs, key, |rs|, m) && Indexed(rs, key, |rs|, m')
    ensures m == m'
  {
    forall x: Uuid
      ensures x in m <==> x in m'
      ensures x in m ==> m[x] == m'[x]
    {
      if x in m || x in m' {
        var i :| 0 <= i < |rs| && key(rs[i]) == Some(x);
      }
    }
  }

  /** Sound entries, one record an identity, at most one of them open. */
  ghost predicate EntriesSound(g: Graph, k: int) {
    && k <= |g.entries| && (forall n | 0 <= n < k :: EntryOk(g, g.entries[n]))
    && Once(g.entries, EntryId, k) && Once(g.entries, OpenEntry, k)
  }

  ghost function EntryId(e: TimeEntry): Option<Uuid> { Some(e.id) }
  ghost function OpenEntry(e: TimeEntry): Option<()> { if e.ended.None? then Some(()) else None }

  /** Sound runs, one record an identity, at most one of them unfinished. */
  ghost predicate RunsSound(g: Graph, k: int) {
    && k <= |g.runs| && (forall n | 0 <= n < k :: RunOk(g, g.runs[n]))
    && Once(g.runs, RunId, k) && Once(g.runs, UnfinishedRun, k)
  }

  ghost function RunId(r: TimerRun): Option<Uuid> { Some(r.id) }
  ghost function UnfinishedRun(r: TimerRun): Option<()> { if Unfinished(r) then Some(()) else None }

  /** Sound segments, one record an identity, at most one open segment a run and one segment an entry. */
  ghost predicate SegmentsSound(g: Graph, entries: map<Uuid, TimeEntry>, runs: map<Uuid, TimerRun>, k: int) {
    && k <= |g.segments| && (forall n | 0 <= n < k :: SegmentOk(g, entries, runs, g.segments[n]))
    && Once(g.segments, SegmentId, k) && Once(g.segments, OpenRun, k) && Once(g.segments, SegmentEntry, k)
  }

  ghost function SegmentId(s: TimerSegment): Option<Uuid> { Some(s.id) }
  ghost function OpenRun(s: TimerSegment): Option<Uuid> { if s.ended.None? then Some(s.run) else None }
  ghost function SegmentEntry(s: TimerSegment): Option<Uuid> { s.entry }

  ghost predicate LegacySound(g: Graph, entries: map<Uuid, TimeEntry>, k: int) {
    && k <= |g.legacy| && (forall n | 0 <= n < k :: LegacyOk(g, entries, g.legacy[n]))
    && Once(g.legacy, ReservedEntry, k)
  }

  ghost function ReservedEntry(l: LegacyOpen): Option<Uuid> { Some(l.entry) }

  ghost predicate CommandsSound(g: Graph, runs: map<Uuid, TimerRun>, k: int) {
    && k <= |g.commands| && (forall n | 0 <= n < k :: CommandOk(g, runs, g.commands[n]))
    && Once(g.commands, RequestId, k)
  }

  ghost function RequestId(c: TimerCommand): Option<Uuid> { Some(c.request) }

  ghost predicate AuditsSound(g: Graph, entries: map<Uuid, TimeEntry>, runs: map<Uuid, TimerRun>, segments: map<Uuid, TimerSegment>, k: int) {
    && k <= |g.audits| && (forall n | 0 <= n < k :: AuditOk(g, entries, runs, segments, g.audits[n]))
    && Once(g.audits, AuditId, k)
  }

  ghost function AuditId(a: TimerAudit): Option<Uuid> { Some(a.id) }

  ghost predicate SomeUnfinished(g: Graph) {
    exists n :: 0 <= n < |g.runs| && Unfinished(g.runs[n])
  }

  ghost predicate SoundWith(g: Graph, entries: map<Uuid, TimeEntry>, runs: map<Uuid, TimerRun>, segments: map<Uuid, TimerSegment>) {
    && Indexed(g.entries, EntryId, |g.entries|, entries) && Indexed(g.runs, RunId, |g.runs|, runs) && Indexed(g.segments, SegmentId, |g.segments|, segments)
    && EntriesSound(g, |g.entries|) && RunsSound(g, |g.runs|) && SegmentsSound(g, entries, runs, |g.segments|)
    && LegacySound(g, entries, |g.legacy|)
    && !(g.legacy != [] && SomeUnfinished(g))
    && CommandsSound(g, runs, |g.commands|) && AuditsSound(g, entries, runs, segments, |g.audits|)
  }

  /** What the check promises of the recorded time. */
  ghost predicate Sound(g: Graph) {
    exists entries, runs, segments :: SoundWith(g, entries, runs, segments)
  }

  // ---------------------------------------------------------------- the walks

  lemma NoKeys<R, K(!new)>(rs: seq<R>, key: R -> Option<K>)
    ensures Once(rs, key, 0) && Keys(rs, key, 0, {})
  {
  }

  lemma NoIndex<R(!new)>(rs: seq<R>, key: R -> Option<Uuid>)
    ensures Once(rs, key, 0) && Indexed(rs, key, 0, map[])
  {
  }

  /** The one key a flag stands for. */
  ghost function Flag(up: bool): (s: set<()>) {
    if up then {()} else {}
  }

  method CheckEntries(g: Graph) returns (ok: bool, m: map<Uuid, TimeEntry>)
    ensures ok <==> EntriesSound(g, |g.entries|)
    ensures ok ==> Indexed(g.entries, EntryId, |g.entries|, m)
  {
    hide EntryOk, Once, Keys, Indexed;
    m := map[];
    var open := false;
    NoIndex(g.entries, EntryId);
    NoKeys(g.entries, OpenEntry);
    for k := 0 to |g.entries|
      invariant EntriesSound(g, k) && Indexed(g.entries, EntryId, k, m) && Keys(g.entries, OpenEntry, k, Flag(open))
    {
      var e := g.entries[k];
      IndexedStep(g.entries, EntryId, k, m);
      OnceStep(g.entries, OpenEntry, k, Flag(open));
      var fine := TestEntry(g, e);
      if !fine || (e.ended.None? && open) || e.id in m {
        if EntriesSound(g, |g.entries|) {
          OncePrefix(g.entries, EntryId, k + 1);
          OncePrefix(g.entries, OpenEntry, k + 1);
        }
        return false, m;
      }
      m := m[e.id := e];
      assert Insert(Flag(open), OpenEntry(e)) == Flag(open || e.ended.None?);
      open := open || e.ended.None?;
    }
    ok := true;
  }

  method CheckRuns(g: Graph) returns (ok: bool, m: map<Uuid, TimerRun>, unfinished: bool)
    ensures ok <==> RunsSound(g, |g.runs|)
    ensures ok ==> Indexed(g.runs, RunId, |g.runs|, m) && (unfinished <==> SomeUnfinished(g))
  {
    hide Once, Keys, Indexed, SomeUnfinished, InOrder, NoteOk;
    m, unfinished := map[], false;
    NoIndex(g.runs, RunId);
    NoKeys(g.runs, UnfinishedRun);
    for k := 0 to |g.runs|
      invariant RunsSound(g, k) && Indexed(g.runs, RunId, k, m) && Keys(g.runs, UnfinishedRun, k, Flag(unfinished))
    {
      var r := g.runs[k];
      IndexedStep(g.runs, RunId, k, m);
      OnceStep(g.runs, UnfinishedRun, k, Flag(unfinished));
      var fine := TestRun(g, r);
      var stopped := r.status == "stopped";
      if !fine || (!stopped && unfinished) || r.id in m {
        if RunsSound(g, |g.runs|) {
          OncePrefix(g.runs, RunId, k + 1);
          OncePrefix(g.runs, UnfinishedRun, k + 1);
        }
        return false, m, unfinished;
      }
      m := m[r.id := r];
      assert Insert(Flag(unfinished), UnfinishedRun(r)) == Flag(unfinished || !stopped);
      unfinished := unfinished || !stopped;
    }
    FlagMeans(g, unfinished);
    ok := true;
  }

  lemma FlagMeans(g: Graph, unfinished: bool)
    requires Keys(g.runs, UnfinishedRun, |g.runs|, Flag(unfinished))
    ensures unfinished <==> SomeUnfinished(g)
  {
    if unfinished {
      assert () in Flag(unfinished);
    }
  }

  /** Whether the next segment keeps the list sound. */
  ghost predicate SegmentFits(g: Graph, entries: map<Uuid, TimeEntry>, runs: map<Uuid, TimerRun>, s: TimerSegment, known: set<Uuid>, open: set<Uuid>, taken: set<Uuid>) {
    SegmentOk(g, entries, runs, s) && !(s.ended.None? && s.run in open) && !(s.entry.Some? && s.entry.value in taken) && s.id !in known
  }

  lemma SegmentsStep(g: Graph, entries: map<Uuid, TimeEntry>, runs: map<Uuid, TimerRun>, k: nat, m: map<Uuid, TimerSegment>, open: set<Uuid>, taken: set<Uuid>)
    requires k < |g.segments| && SegmentsSound(g, entries, runs, k) && Indexed(g.segments, SegmentId, k, m)
    requires Keys(g.segments, OpenRun, k, open) && Keys(g.segments, SegmentEntry, k, taken)
    ensures SegmentsSound(g, entries, runs, k + 1) <==> SegmentFits(g, entries, runs, g.segments[k], m.Keys, open, taken)
    ensures SegmentFits(g, entries, runs, g.segments[k], m.Keys, open, taken) ==> Indexed(g.segments, SegmentId, k + 1, m[g.segments[k].id := g.segments[k]])
    ensures Keys(g.segments, OpenRun, k + 1, Insert(open, OpenRun(g.segments[k])))
    ensures Keys(g.segments, SegmentEntry, k + 1, Insert(taken, SegmentEntry(g.segments[k])))
  {
    hide SegmentOk, Once, Keys, Indexed;
    IndexedStep(g.segments, SegmentId, k, m);
    OnceStep(g.segments, OpenRun, k, open);
    OnceStep(g.segments, SegmentEntry, k, taken);
  }

  lemma SegmentsPrefix(g: Graph, entries: map<Uuid, TimeEntry>, runs: map<Uuid, TimerRun>, k: nat)
    requires k <= |g.segments| && SegmentsSound(g, entries, runs, |g.segments|)
    ensures SegmentsSound(g, entries, runs, k)
  {
    hide SegmentOk, Once;
    OncePrefix(g.segments, SegmentId, k);
    OncePrefix(g.segments, OpenRun, k);
    OncePrefix(g.segments, SegmentEntry, k);
  }

  method CheckSegments(g: Graph, entries: map<Uuid, TimeEntry>, runs: map<Uuid, TimerRun>) returns (ok: bool, m: map<Uuid, TimerSegment>)
    ensures ok <==> SegmentsSound(g, entries, runs, |g.segments|)
    ensures ok ==> Indexed(g.segments, SegmentId, |g.segments|, m)
  {
    hide SegmentOk, SegmentsSound, Once, Keys, Indexed;
    m := map[];
    var open: set<Uuid>, taken: set<Uuid> := {}, {};
    NoSegments(g, entries, runs);
    for k := 0 to |g.segments|
      invariant SegmentsSound(g, entries, runs, k) && Indexed(g.segments, SegmentId, k, m)
      invariant Keys(g.segments, OpenRun, k, open) && Keys(g.segments, SegmentEntry, k, taken)
    {
      var s := g.segments[k];
      SegmentsStep(g, entries, runs, k, m, open, taken);
      var fine := TestSegment(g, entries, runs, s);
      if !fine || (s.ended.None? && s.run in open) || (s.entry.Some? && s.entry.value in taken) || s.id in m {
        if SegmentsSound(g, entries, runs, |g.segments|) {
          SegmentsPrefix(g, entries, runs, k + 1);
        }
        return false, m;
      }
      m := m[s.id := s];
      if s.ended.None? {
        open := open + {s.run};
      }
      if s.entry.Some? {
        taken := taken + {s.entry.value};
      }
    }
    ok := true;
  }

  lemma NoSegments(g: Graph, entries: map<Uuid, TimeEntry>, runs: map<Uuid, TimerRun>)
    ensures SegmentsSound(g, entries, runs, 0) && Indexed(g.segments, SegmentId, 0, map[])
    ensures Keys(g.segments, OpenRun, 0, {}) && Keys(g.segments, SegmentEntry, 0, {})
  {
  }

  method CheckLegacy(g: Graph, entries: map<Uuid, TimeEntry>) returns (ok: bool)
    ensures ok <==> LegacySound(g, entries, |g.legacy|)
  {
    hide LegacyOk, Once, Keys;
    var seen: set<Uuid> := {};
    NoKeys(g.legacy, ReservedEntry);
    for k := 0 to |g.legacy|
      invariant LegacySound(g, entries, k) && Keys(g.legacy, ReservedEntry, k, seen)
    {
      var l := g.legacy[k];
      OnceStep(g.legacy, ReservedEntry, k, seen);
      var fine := TestLegacy(g, entries, l);
      if !fine || l.entry in seen {
        if LegacySound(g, entries, |g.legacy|) {
          OncePrefix(g.legacy, ReservedEntry, k + 1);
        }
        return false;
      }
      seen := seen + {l.entry};
    }
    ok := true;
  }

  method CheckCommands(g: Graph, runs: map<Uuid, TimerRun>) returns (ok: bool)
    ensures ok <==> CommandsSound(g, runs, |g.commands|)
  {
    hide CommandOk, Once, Keys;
    var seen: set<Uuid> := {};
    NoKeys(g.commands, RequestId);
    for k := 0 to |g.commands|
      invariant CommandsSound(g, runs, k) && Keys(g.commands, RequestId, k, seen)
    {
      var c := g.commands[k];
      OnceStep(g.commands, RequestId, k, seen);
      var fine := TestCommand(g, runs, c);
      if !fine || c.request in seen {
        if CommandsSound(g, runs, |g.commands|) {
          OncePrefix(g.commands, RequestId, k + 1);
        }
        return false;
      }
      seen := seen + {c.request};
    }
    ok := true;
  }

  method CheckAudits(g: Graph, entries: map<Uuid, TimeEntry>, runs: map<Uuid, TimerRun>, segments: map<Uuid, TimerSegment>) returns (ok: bool)
    ensures ok <==> AuditsSound(g, entries, runs, segments, |g.audits|)
  {
    hide AuditOk, Once, Keys;
    var seen: set<Uuid> := {};
    NoKeys(g.audits, AuditId);
    for k := 0 to |g.audits|
      invariant AuditsSound(g, entries, runs, segments, k) && Keys(g.audits, AuditId, k, seen)
    {
      var a := g.audits[k];
      OnceStep(g.audits, AuditId, k, seen);
      var fine := TestAudit(g, entries, runs, segments, a);
      if !fine || a.id in seen {
        if AuditsSound(g, entries, runs, segments, |g.audits|) {
          OncePrefix(g.audits, AuditId, k + 1);
        }
        return false;
      }
      seen := seen + {a.id};
    }
    ok := true;
  }

  /** `validate_task_time` accepts exactly the sound lists. */
  method ValidateTaskTime(g: Graph) returns (ok: bool)
    ensures ok <==> Sound(g)
  {
    hide Indexed, EntriesSound, RunsSound, SegmentsSound, LegacySound, CommandsSound, AuditsSound, SomeUnfinished;
    ok := false;
    var entriesOk, entries := CheckEntries(g);
    if !entriesOk { return; }
    var runsOk, runs, unfinished := CheckRuns(g);
    if !runsOk { return; }
    forall e, r, s | SoundWith(g, e, r, s)
      ensures e == entries && r == runs
    {
      IndexedUnique(g.entries, EntryId, e, entries);
      IndexedUnique(g.runs, RunId, r, runs);
    }
    var segmentsOk, segments := CheckSegments(g, entries, runs);
    if !segmentsOk { return; }
    forall e, r, s | SoundWith(g, e, r, s)
      ensures s == segments
    {
      IndexedUnique(g.segments, SegmentId, s, segments);
    }
    var legacyOk := CheckLegacy(g, entries);
    if !legacyOk || (g.legacy != [] && unfinished) { return; }
    var commandsOk := CheckCommands(g, runs);
    if !commandsOk { return; }
    var auditsOk := CheckAudits(g, entries, runs, segments);
    if !auditsOk { return; }
    assert SoundWith(g, entries, runs, segments);
    ok := true;
  }

  // ---------------------------------------------------------------- what acceptance means

  ghost function CountUnfinished(runs: seq<TimerRun>): nat {
    if runs == [] then 0 else (if Unfinished(runs[0]) then 1 else 0) + CountUnfinished(runs[1..])
  }

  lemma {:induction false} CountNone(runs: seq<TimerRun>)
    requires forall n | 0 <= n < |runs| :: !Unfinished(runs[n])
    ensures CountUnfinished(runs) == 0
  {
    if runs != [] {
      CountNone(runs[1..]);
    }
  }

  lemma {:induction false} CountAtMostOne(runs: seq<TimerRun>)
    requires forall i, j | 0 <= i < j < |runs| :: !Unfinished(runs[i]) || !Unfinished(runs[j])
    ensures CountUnfinished(runs) <= 1
  {
    if runs != [] {
      CountAtMostOne(runs[1..]);
      if Unfinished(runs[0]) {
        CountNone(runs[1..]);
      }
    }
  }

  lemma SameKey<R, K(!new)>(rs: seq<R>, key: R -> Option<K>, i: nat, j: nat)
    requires Once(rs, key, |rs|) && i < |rs| && j < |rs| && key(rs[i]).Some? && key(rs[i]) == key(rs[j])
    ensures i == j
  {
  }

  /** A key leads to one record. */
  lemma Found<R(!new)>(rs: seq<R>, key: R -> Option<Uuid>, m: map<Uuid, R>, id: Uuid) returns (n: nat)
    requires Indexed(rs, key, |rs|, m) && Once(rs, key, |rs|) && id in m
    ensures n < |rs| && rs[n] == m[id] && key(rs[n]) == Some(id)
    ensures forall i | 0 <= i < |rs| && key(rs[i]) == Some(id) :: i == n
  {
    n :| 0 <= n < |rs| && key(rs[n]) == Some(id);
  }

  lemma OneOpenEntry(g: Graph, entries: map<Uuid, TimeEntry>, a: Uuid, b: Uuid)
    requires EntriesSound(g, |g.entries|) && Indexed(g.entries, EntryId, |g.entries|, entries)
    requires a in entries && b in entries && entries[a].ended.None? && entries[b].ended.None?
    ensures a == b
  {
    hide EntryOk, Once, Indexed;
    var i := Found(g.entries, EntryId, entries, a);
    var j := Found(g.entries, EntryId, entries, b);
    SameKey(g.entries, OpenEntry, i, j);
  }

  lemma AtMostOneUnfinished(g: Graph)
    requires Once(g.runs, UnfinishedRun, |g.runs|)
    ensures CountUnfinished(g.runs) <= 1
  {
    forall i, j | 0 <= i < j < |g.runs|
      ensures !Unfinished(g.runs[i]) || !Unfinished(g.runs[j])
    {
      assert UnfinishedRun(g.runs[i]).Some? ==> UnfinishedRun(g.runs[i]) != UnfinishedRun(g.runs[j]);
    }
    CountAtMostOne(g.runs);
  }

  lemma AtMostOneReserved(g: Graph, entries: map<Uuid, TimeEntry>)
    requires EntriesSound(g, |g.entries|) && Indexed(g.entries, EntryId, |g.entries|, entries) && LegacySound(g, entries, |g.legacy|)
    ensures |g.legacy| <= 1
  {
    hide EntryOk, Once, Indexed, EntriesSound;
    if |g.legacy| > 1 {
      assert LegacyOk(g, entries, g.legacy[0]) && LegacyOk(g, entries, g.legacy[1]);
      OneOpenEntry(g, entries, g.legacy[0].entry, g.legacy[1].entry);
      SameKey(g.legacy, ReservedEntry, 0, 1);
    }
  }

  /** A person tracks at most one thing: unfinished runs and reserved entries together are at most one. */
  lemma AtMostOneActive(g: Graph)
    requires Sound(g)
    ensures CountUnfinished(g.runs) + |g.legacy| <= 1
  {
    hide EntriesSound, Once, Indexed, LegacySound, SegmentsSound, CommandsSound, AuditsSound, Unfinished, CountUnfinished;
    var entries, runs, segments :| SoundWith(g, entries, runs, segments);
    AtMostOneUnfinished(g);
    AtMostOneReserved(g, entries);
    if g.legacy != [] {
      CountNone(g.runs);
    }
  }

  /** A segment belongs to one recorded run of the same task; two open segments are of different runs. */
  lemma OneOpenSegment(g: Graph, i: nat, j: nat)
    requires Sound(g) && i < |g.segments| && j < |g.segments|
    ensures exists n :: 0 <= n < |g.runs| && g.runs[n].id == g.segments[i].run && g.runs[n].task == g.segments[i].task
                        && forall m | 0 <= m < |g.runs| :: g.runs[m].id == g.segments[i].run ==> m == n
    ensures g.segments[i].run == g.segments[j].run && g.segments[i].ended.None? && g.segments[j].ended.None? ==> i == j
  {
    hide EntriesSound, Once, Indexed, LegacySound, CommandsSound, AuditsSound, RunOk;
    var entries, runs, segments :| SoundWith(g, entries, runs, segments);
    assert SegmentOk(g, entries, runs, g.segments[i]);
    var n := Found(g.runs, RunId, runs, g.segments[i].run);
    assert forall m | 0 <= m < |g.runs| :: g.runs[m].id == g.segments[i].run ==> RunId(g.runs[m]) == Some(g.segments[i].run);
    if g.segments[i].run == g.segments[j].run && g.segments[i].ended.None? && g.segments[j].ended.None? {
      SameKey(g.segments, OpenRun, i, j);
    }
  }

  /** Segments and the entries they became: no entry twice, none from another task, none while still open. */
  lemma SegmentEntriesInjective(g: Graph, i: nat, j: nat)
    requires Sound(g) && i < |g.segments| && j < |g.segments| && g.segments[i].entry.Some?
    ensures g.segments[i].entry == g.segments[j].entry ==> i == j
    ensures g.segments[i].ended.Some?
    ensures exists n :: 0 <= n < |g.entries| && g.entries[n].id == g.segments[i].entry.value && g.entries[n].task == g.segments[i].task
                        && forall m | 0 <= m < |g.entries| :: g.entries[m].id == g.segments[i].entry.value ==> m == n
  {
    hide EntryOk, Once, Indexed, LegacySound, CommandsSound, AuditsSound, RunsSound;
    var entries, runs, segments :| SoundWith(g, entries, runs, segments);
    assert SegmentOk(g, entries, runs, g.segments[i]);
    var id := g.segments[i].entry.value;
    var n := Found(g.entries, EntryId, entries, id);
    assert forall m | 0 <= m < |g.entries| :: g.entries[m].id == id ==> EntryId(g.entries[m]) == Some(id);
    if g.segments[i].entry == g.segments[j].entry {
      SameKey(g.segments, SegmentEntry, i, j);
    }
  }

  /** An audited record lives in the task the audit names. */
  lemma AuditedRecordInTask(g: Graph, n: nat, v: Json, record: Uuid)
    requires Sound(g) && n < |g.audits| && (v == g.audits[n].before || v == g.audits[n].after)
    requires v.Obj? && "recordId" in v.fields && AsUuid(v.fields["recordId"]) == Some(record) && g.audits[n].task.Some?
    ensures || (exists i :: 0 <= i < |g.entries| && g.entries[i].id == record && g.entries[i].task == g.audits[n].task.value)
            || (exists i :: 0 <= i < |g.segments| && g.segments[i].id == record && g.segments[i].task == g.audits[n].task.value)
  {
    hide EntryOk, RunOk, SegmentOk, Once, Indexed, LegacySound, CommandsSound, RunsSound, Parse;
    var entries, runs, segments :| SoundWith(g, entries, runs, segments);
    var a := g.audits[n];
    assert AuditOk(g, entries, runs, segments, a);
    assert SideOk(entries, runs, segments, a, v);
    assert RecordOk(entries, segments, a, v, record);
    if Get(v, "kind") == Some(Str("manual")) {
      var i := Found(g.entries, EntryId, entries, record);
    } else {
      var i := Found(g.segments, SegmentId, segments, record);
    }
  }

  /** The recorded times of accepted lists: a closed entry's length in whole seconds, and nothing ends before it starts. */
  lemma TimesAreConsistent(g: Graph)
    requires Sound(g)
    ensures forall e | e in g.entries && e.ended.Some? ::
      && e.seconds.Some? && g.clock(e.started).Some? && g.clock(e.ended.value).Some?
      && 1 <= e.seconds.value == (g.clock(e.ended.value).value - g.clock(e.started).value) / SECOND
    ensures forall e | e in g.entries && e.ended.None? :: e.seconds.None?
    ensures forall r | r in g.runs && r.stopped.Some? ::
      r.status == "stopped" && g.clock(r.started).Some? && g.clock(r.stopped.value).Some? && g.clock(r.started).value <= g.clock(r.stopped.value).value
    ensures forall r | r in g.runs && r.stopped.None? :: r.status == "running" || r.status == "paused"
    ensures forall s | s in g.segments && s.ended.Some? ::
      g.clock(s.started).Some? && g.clock(s.ended.value).Some? && g.clock(s.started).value <= g.clock(s.ended.value).value
  {
    hide Once, Indexed, LegacySound, CommandsSound, AuditsSound, EntryOk, RunOk, SegmentOk;
    var entries, runs, segments :| SoundWith(g, entries, runs, segments);
    forall e | e in g.entries
      ensures EntryOk(g, e)
    {
      var i :| 0 <= i < |g.entries| && g.entries[i] == e;
    }
    forall r | r in g.runs
      ensures RunOk(g, r)
    {
      var i :| 0 <= i < |g.runs| && g.runs[i] == r;
    }
    forall s | s in g.segments
      ensures SegmentOk(g, entries, runs, s)
    {
      var i :| 0 <= i < |g.segments| && g.segments[i] == s;
    }
    EntryTimes(g);
    RunTimes(g);
    SegmentTimes(g, entries, runs);
  }

  lemma EntryTimes(g: Graph)
    requires forall e | e in g.entries :: EntryOk(g, e)
    ensures forall e | e in g.entries && e.ended.Some? ::
      && e.seconds.Some? && g.clock(e.started).Some? && g.clock(e.ended.value).Some?
      && 1 <= e.seconds.value == (g.clock(e.ended.value).value - g.clock(e.started).value) / SECOND
    ensures forall e | e in g.entries && e.ended.None? :: e.seconds.None?
  {
  }

  lemma RunTimes(g: Graph)
    requires forall r | r in g.runs :: RunOk(g, r)
    ensures forall r | r in g.runs && r.stopped.Some? ::
      r.status == "stopped" && g.clock(r.started).Some? && g.clock(r.stopped.value).Some? && g.clock(r.started).value <= g.clock(r.stopped.value).value
    ensures forall r | r in g.runs && r.stopped.None? :: r.status == "running" || r.status == "paused"
  {
  }

  lemma SegmentTimes(g: Graph, entries: map<Uuid, TimeEntry>, runs: map<Uuid, TimerRun>)
    requires forall s | s in g.segments :: SegmentOk(g, entries, runs, s)
    ensures forall s | s in g.segments && s.ended.Some? ::
      g.clock(s.started).Some? && g.clock(s.ended.value).Some? && g.clock(s.started).value <= g.clock(s.ended.value).value
  {
  }
}
