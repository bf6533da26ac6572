/**
  * The import worker's protocol over one job row: claims with a lease and a fence token, durable
  * references written with every row they name, compensation, retry, sweep. Crashes, lost answers,
  * expiring leases, superseded workers, users and the reclaim of journaled keys are all actions, so a run is
  * any sequence of them.
  */
module ImportProtocol {
  import opened Options

  const MAX_ATTEMPTS := 2

  type Token = nat

  /** What an import creates: documents and tasks in the database, objects in storage. */
  datatype Item = Document(id: nat) | Task(id: nat) | Object(key: nat)

  datatype Status = Running | Completed | Failed

  /** Why a run ended early; shutdown, denial, database and body errors are all `Other`. */
  datatype Cause = Transient | CleanupIncomplete | Other

  datatype Phase =
    | Cleaning(todo: set<Item>, failed: nat)
    | Working
    | Putting(item: Item)
    | Marking(item: Item)
    | Undoing(cause: Cause, todo: set<Item>, failed: nat)
    | Ended

  datatype Worker = Worker(attempt: nat, prior: set<Item>, created: set<Item>, phase: Phase)

  /**
    * The job row (`status` to `refs`), what exists (`live`), the attachment rows with the row each key
    * belongs to (`files`), the clean-up journal and the keys a reclaim is working on, every identity
    * ever given out, the workers, and what the sweep has still to undo.
    */
  datatype State = State(
    status: Status, token: Option<Token>, lease: bool, attempts: nat, refs: set<Item>,
    live: set<Item>, files: map<Item, Item>, journal: set<Item>, reclaiming: set<Item>, used: set<Item>,
    workers: map<Token, Worker>, sweep: set<Item>, sweepFailed: nat)

  const Initial := State(Running, None, false, 0, {}, {}, map[], {}, {}, {}, map[], {}, 0)

  /** A call's answer: effect and answer, effect with the answer lost, or neither. */
  datatype Reply = Ack | Lost | Refused

  datatype Action =
    | Claim(t: Token)
    | Expire
    | Crash(t: Token)
    | Gone(item: Item)
    | Upload(item: Item, parent: Item)
    | Detach(item: Item)
    | ReclaimStart(item: Item)
    | ReclaimEnd(item: Item, dropped: bool)
    | CleanItem(t: Token, item: Item, purged: bool)
    | CleanFailed(t: Token)
    | Reset(t: Token, reply: Reply)
    | Create(t: Token, item: Item, reply: Reply)
    | Reserve(t: Token, item: Item, parent: Item, reply: Reply)
    | Put(t: Token, reply: Reply)
    | Mark(t: Token, reply: Reply)
    | Fail(t: Token, cause: Cause)
    | UndoItem(t: Token, item: Item, purged: bool)
    | Release(t: Token, reply: Reply)
    | GiveUp(t: Token, reply: Reply)
    | Complete(t: Token, reply: Reply)
    | Sweep
    | SweepItem(item: Item, purged: bool)

  /** `OWNED_BY_RUNNER`: the guard of every fenced write. */
  predicate Owned(s: State, t: Token) {
    s.status == Running && s.token == Some(t) && s.lease
  }

  /** Rows go first, in any order here; objects only once every row purge has succeeded. */
  predicate MayPurge(todo: set<Item>, failed: nat, item: Item) {
    item in todo && (item.Object? ==> failed == 0 && forall i | i in todo :: i.Object?)
  }

  predicate Over(todo: set<Item>, failed: nat) {
    (forall i | i in todo :: i.Object?) && (failed > 0 || todo == {})
  }

  predicate Retries(w: Worker) {
    w.phase.Undoing? && (w.phase.cause == Transient || w.phase.cause == CleanupIncomplete) && w.attempt < MAX_ATTEMPTS
  }

  predicate Enabled(s: State, a: Action) {
    match a
    case Claim(t) => s.status == Running && s.attempts < MAX_ATTEMPTS && (s.token == None || !s.lease) && t !in s.workers
    case Expire => true
    case Crash(t) => t in s.workers
    case Gone(item) => !item.Object?
    case Upload(item, parent) => item.Object? && item !in s.used && !parent.Object? && parent in s.live
    case Detach(item) => item in s.files
    case ReclaimStart(item) => item in s.journal && item !in s.files && item !in s.reclaiming
    case ReclaimEnd(item, _) => item in s.reclaiming
    case CleanItem(t, item, _) => t in s.workers && s.workers[t].phase.Cleaning? && MayPurge(s.workers[t].phase.todo, s.workers[t].phase.failed, item)
    case CleanFailed(t) => t in s.workers && s.workers[t].phase.Cleaning? && Over(s.workers[t].phase.todo, s.workers[t].phase.failed) && s.workers[t].phase.failed > 0
    case Reset(t, _) => t in s.workers && s.workers[t].phase.Cleaning? && Over(s.workers[t].phase.todo, s.workers[t].phase.failed) && s.workers[t].phase.failed == 0
    case Create(t, item, _) => t in s.workers && s.workers[t].phase.Working? && !item.Object? && item !in s.used
    case Reserve(t, item, parent, _) =>
      t in s.workers && s.workers[t].phase.Working? && item.Object? && item !in s.used && parent.Document? && parent in s.workers[t].created
    case Put(t, _) => t in s.workers && s.workers[t].phase.Putting?
    case Mark(t, _) => t in s.workers && s.workers[t].phase.Marking?
    case Fail(t, cause) =>
      t in s.workers && (s.workers[t].phase.Working? || s.workers[t].phase.Putting? || s.workers[t].phase.Marking?) && cause != CleanupIncomplete
    case UndoItem(t, item, _) => t in s.workers && s.workers[t].phase.Undoing? && MayPurge(s.workers[t].phase.todo, s.workers[t].phase.failed, item)
    case Release(t, _) => t in s.workers && s.workers[t].phase.Undoing? && Over(s.workers[t].phase.todo, s.workers[t].phase.failed) && Retries(s.workers[t])
    case GiveUp(t, _) => t in s.workers && s.workers[t].phase.Undoing? && Over(s.workers[t].phase.todo, s.workers[t].phase.failed) && !Retries(s.workers[t])
    case Complete(t, _) => t in s.workers && s.workers[t].phase.Working?
    case Sweep => s.status == Running && s.token.Some? && !s.lease
    case SweepItem(item, _) => MayPurge(s.sweep, s.sweepFailed, item)
  }

  function Set(s: State, t: Token, w: Worker): State {
    s.(workers := s.workers[t := w])
  }

  function At(s: State, t: Token, p: Phase): State
    requires t in s.workers
  {
    Set(s, t, s.workers[t].(phase := p))
  }

  /** The keys of a row's attachments. */
  function FilesOf(s: State, row: Item): set<Item> {
    set k | k in s.files && s.files[k] == row
  }

  /** A purge: a row goes with its attachment rows, whose keys enter the journal in the same transaction; an object just goes. */
  function Drop(s: State, item: Item): State {
    if item.Object? then s.(live := s.live - {item})
    else s.(live := s.live - {item}, files := map k | k in s.files && s.files[k] != item :: s.files[k], journal := s.journal + FilesOf(s, item))
  }

  /** What is left to purge after an item: the keys of a removed row's attachments are added. */
  function Rest(s: State, todo: set<Item>, item: Item, purged: bool): set<Item> {
    todo - {item} + (if purged && !item.Object? then FilesOf(s, item) else {})
  }

  /** An early end: undo what this run knows it created. */
  function Undo(w: Worker, cause: Cause): Worker {
    w.(phase := Undoing(cause, w.created, 0))
  }

  /** `release_import_job_for_retry` clears the references only after a complete compensation of a transient failure. */
  predicate Clears(w: Worker) {
    w.phase.Undoing? && w.phase.failed == 0 && w.phase.cause != CleanupIncomplete
  }

  function Next(s: State, a: Action): State
    requires Enabled(s, a)
  {
    match a
    case Claim(t) =>
      Set(s.(token := Some(t), lease := true, attempts := s.attempts + 1), t,
          Worker(s.attempts + 1, s.refs, {}, if s.refs == {} then Working else Cleaning(s.refs, 0)))
    case Expire => s.(lease := false)
    case Crash(t) => At(s, t, Ended)
    case Gone(item) => Drop(s, item)
    case Upload(item, parent) => s.(live := s.live + {item}, files := s.files[item := parent], used := s.used + {item})
    case Detach(item) => s.(files := s.files - {item}, journal := s.journal + {item})
    case ReclaimStart(item) => s.(live := s.live - {item}, reclaiming := s.reclaiming + {item})
    case ReclaimEnd(item, dropped) => s.(reclaiming := s.reclaiming - {item}, journal := if dropped then s.journal - {item} else s.journal)
    case CleanItem(t, item, purged) =>
      var p := s.workers[t].phase;
      At(if purged then Drop(s, item) else s, t, Cleaning(Rest(s, p.todo, item, purged), if purged then p.failed else p.failed + 1))
    case CleanFailed(t) => Set(s, t, Undo(s.workers[t], CleanupIncomplete))
    case Reset(t, reply) =>
      var owned := Owned(s, t);
      var s1 := if owned && reply != Refused then s.(refs := {}) else s;
      if reply == Ack then At(s1, t, if owned then Working else Ended) else Set(s1, t, Undo(s.workers[t], Other))
    case Create(t, item, reply) =>
      var owned, w := Owned(s, t), s.workers[t];
      var s1 := if owned && reply != Refused then s.(refs := s.refs + {item}, live := s.live + {item}, used := s.used + {item}) else s;
      if reply == Ack then Set(s1, t, if owned then w.(created := w.created + {item}) else w.(phase := Ended)) else Set(s1, t, Undo(w, Other))
    case Reserve(t, item, parent, reply) =>
      var owned, w := Owned(s, t), s.workers[t];
      if !owned then Set(s, t, if reply == Ack then w.(phase := Ended) else Undo(w, Other))
      else if parent !in s.live then Set(s, t, Undo(w, Other))
      else
        var s1 := if reply != Refused then s.(refs := s.refs + {item}, files := s.files[item := parent], used := s.used + {item}) else s;
        Set(s1, t, if reply == Ack then w.(created := w.created + {item}, phase := Putting(item)) else Undo(w, Other))
    case Put(t, reply) =>
      var w := s.workers[t];
      var s1 := if reply != Refused then s.(live := s.live + {w.phase.item}) else s;
      Set(s1, t, if reply == Ack then w.(phase := Marking(w.phase.item)) else Undo(w, Other))
    case Mark(t, reply) =>
      var owned, w := Owned(s, t), s.workers[t];
      Set(s, t, if reply != Ack then Undo(w, Other) else if !owned then w.(phase := Ended) else if w.phase.item in s.files then w.(phase := Working) else Undo(w, Other))
    case Fail(t, cause) => Set(s, t, Undo(s.workers[t], cause))
    case UndoItem(t, item, purged) =>
      var p := s.workers[t].phase;
      At(if purged then Drop(s, item) else s, t, Undoing(p.cause, Rest(s, p.todo, item, purged), if purged then p.failed else p.failed + 1))
    case Release(t, reply) =>
      var w := s.workers[t];
      var s1 := if Owned(s, t) && reply != Refused then s.(token := None, lease := false, refs := if Clears(w) then {} else s.refs) else s;
      At(s1, t, Ended)
    case GiveUp(t, reply) =>
      At(if Owned(s, t) && reply != Refused then s.(status := Failed, token := None, lease := false) else s, t, Ended)
    case Complete(t, reply) =>
      At(if Owned(s, t) && reply != Refused then s.(status := Completed, token := None, lease := false) else s, t, Ended)
    case Sweep => s.(status := Failed, token := None, sweep := s.refs, sweepFailed := 0)
    case SweepItem(item, purged) =>
      (if purged then Drop(s, item) else s).(sweep := Rest(s, s.sweep, item, purged), sweepFailed := if purged then s.sweepFailed else s.sweepFailed + 1)
  }

  /** The states a run goes through, one action at a time. */
  ghost predicate Run(s: State, actions: seq<Action>, end: State)
    decreases |actions|
  {
    if actions == [] then s == end
    else Enabled(s, actions[0]) && Run(Next(s, actions[0]), actions[1..], end)
  }

  // ---------------------------------------------------------------- the invariant

  /** Everything a worker may still purge, the keys of rows it purges aside. */
  function Target(w: Worker): set<Item> {
    match w.phase
    case Cleaning(todo, _) => w.prior + todo
    case Undoing(_, todo, _) => w.created + todo
    case Ended => {}
    case _ => w.created
  }

  predicate RowsWithin(todo: set<Item>, named: set<Item>) {
    forall i | i in todo && !i.Object? :: i in named
  }

  predicate WorkerOk(s: State, w: Worker) {
    && w.prior <= s.used && w.created <= s.used && w.attempt <= MAX_ATTEMPTS
    && (w.phase.Cleaning? ==> w.created == {} && w.phase.todo <= s.used && RowsWithin(w.phase.todo, w.prior))
    && (w.phase.Undoing? ==> w.phase.todo <= s.used && RowsWithin(w.phase.todo, w.created))
    && (w.phase.Putting? || w.phase.Marking? ==> w.phase.item in w.created && w.phase.item.Object?)
  }

  /** Attachment rows belong to live rows, and to a row of the worker that reserved their key; the journal holds keys without a row. */
  predicate FilesOk(s: State) {
    && s.files.Keys <= s.used && s.journal <= s.used && s.reclaiming <= s.journal && s.journal !! s.files.Keys
    && (forall k | k in s.files :: k.Object? && !s.files[k].Object? && s.files[k] in s.live)
    && (forall k | k in s.journal :: k.Object?)
    && (forall t, k | t in s.workers && k in s.files && k in s.workers[t].created :: s.files[k] in s.workers[t].created)
  }

  /** Rows of `named` that compensation has passed are gone. */
  predicate Purged(s: State, named: set<Item>, todo: set<Item>) {
    forall i | i in named && i !in todo && !i.Object? :: i !in s.live
  }

  /** What the lease holder's phase says about the durable references. */
  predicate OwnerOk(s: State, w: Worker) {
    match w.phase
    case Cleaning(todo, failed) => s.refs == w.prior && (failed == 0 ==> Purged(s, s.refs, todo))
    case Working => s.refs == w.created
    case Putting(_) => s.refs == w.created
    case Marking(_) => s.refs == w.created
    case Undoing(cause, todo, failed) => cause == Transient ==> s.refs == w.created && (failed == 0 ==> Purged(s, s.refs, todo))
    case Ended => true
  }

  predicate RowsNamed(s: State) {
    forall i | i in s.live && !i.Object? :: i in s.refs
  }

  /** Nobody but the lease holder may purge what the lease holder created. */
  predicate Apart(s: State, t: Token)
    requires t in s.workers
  {
    forall u | u in s.workers && u != t :: s.workers[t].created !! Target(s.workers[u])
  }

  /** Nobody is about to purge what the references name, nor a row whose key they name. */
  predicate Untouched(s: State) {
    && (forall u | u in s.workers :: s.refs !! Target(s.workers[u]))
    && (forall k | k in s.files && k in s.refs :: s.files[k] in s.refs)
  }

  predicate Inv(s: State) {
    Base(s) && FilesOk(s)
  }

  predicate Base(s: State) {
    && s.live <= s.used && s.refs <= s.used && s.sweep <= s.used && s.attempts <= MAX_ATTEMPTS
    && (forall t | t in s.workers :: WorkerOk(s, s.workers[t]))
    && RowsNamed(s)
    && (s.status != Running ==> s.token == None)
    && (s.status != Failed ==> s.sweep == {})
    && (s.status == Running && s.token == None ==> s.attempts < MAX_ATTEMPTS)
    && (s.status == Completed ==> Untouched(s))
    && (s.token.Some? ==>
          && s.token.value in s.workers
          && s.workers[s.token.value].attempt == s.attempts
          && OwnerOk(s, s.workers[s.token.value])
          && Apart(s, s.token.value))
  }

  lemma InitialInv()
    ensures Inv(Initial)
  {
  }

  // ---------------------------------------------------------------- attachment rows

  /** Actions that purge an item or pass it over. */
  predicate Purges(a: Action) {
    a.Gone? || a.CleanItem? || a.UndoItem? || a.SweepItem?
  }

  /** Actions that make or move an attachment row, a row or a journal entry. */
  predicate Stores(a: Action) {
    a.Create? || a.Reserve? || a.Upload? || a.Detach? || a.ReclaimStart? || a.ReclaimEnd?
  }

  lemma DropKeepsFiles(s: State, item: Item)
    requires Inv(s)
    ensures FilesOk(Drop(s, item))
  {
    hide RowsNamed, OwnerOk, Apart, Untouched, Target, WorkerOk;
  }

  /** The attachment rows and the journal do not depend on how far a worker is. */
  lemma FilesFrame(s: State, e: State)
    requires FilesOk(s) && e.files == s.files && e.journal == s.journal && e.reclaiming == s.reclaiming && s.used <= e.used
    requires s.workers.Keys <= e.workers.Keys
    requires forall k | k in s.files :: s.files[k] in e.live
    requires forall t | t in e.workers :: e.workers[t].created == (if t in s.workers then s.workers[t].created else {})
    ensures FilesOk(e)
  {
  }

  lemma PurgesKeepFiles(s: State, a: Action)
    requires Inv(s) && Enabled(s, a) && Purges(a)
    ensures FilesOk(Next(s, a))
  {
    hide Base, FilesOk, MayPurge, Drop, Rest;
    DropKeepsFiles(s, a.item);
    DropFrame(s, a.item);
    var s1 := if a.Gone? || a.purged then Drop(s, a.item) else s;
    var e := Next(s, a);
    assert e.files == s1.files && e.live == s1.live;
    FilesLive(s1);
    FilesFrame(s1, e);
  }

  lemma FilesLive(s: State)
    requires FilesOk(s)
    ensures forall k | k in s.files :: s.files[k] in s.live
  {
  }

  lemma DropFrame(s: State, item: Item)
    ensures var e := Drop(s, item);
            && e.live == s.live - {item} && e.used == s.used && e.workers == s.workers && e.refs == s.refs && e.status == s.status
            && e.token == s.token && e.lease == s.lease && e.attempts == s.attempts && e.sweep == s.sweep && e.sweepFailed == s.sweepFailed
            && e.reclaiming == s.reclaiming
  {
  }

  lemma CreateKeepsFiles(s: State, t: Token, item: Item, reply: Reply)
    requires Inv(s) && Enabled(s, Create(t, item, reply))
    ensures FilesOk(Next(s, Create(t, item, reply)))
  {
    hide RowsNamed, OwnerOk, Apart, Untouched, Target, Over, MayPurge, Drop, Rest, Retries;
  }

  lemma ReserveKeepsFiles(s: State, t: Token, item: Item, parent: Item, reply: Reply)
    requires Inv(s) && Enabled(s, Reserve(t, item, parent, reply))
    ensures FilesOk(Next(s, Reserve(t, item, parent, reply)))
  {
    hide RowsNamed, OwnerOk, Apart, Untouched, Target, Over, MayPurge, Drop, Rest, Retries;
  }

  lemma JournalKeepsFiles(s: State, a: Action)
    requires Inv(s) && Enabled(s, a) && (a.Upload? || a.Detach? || a.ReclaimStart? || a.ReclaimEnd?)
    ensures FilesOk(Next(s, a))
  {
    hide RowsNamed, OwnerOk, Apart, Untouched, Target, Over, MayPurge, Drop, Rest, Retries;
  }

  lemma OthersKeepFiles(s: State, a: Action)
    requires Inv(s) && Enabled(s, a) && !Purges(a) && !Stores(a)
    ensures FilesOk(Next(s, a))
  {
    hide Inv, Base, FilesOk, Next, Enabled;
    if a.Claim? || a.Expire? || a.Sweep? {
      JobKeepsFiles(s, a);
    } else {
      TurnsKeepFiles(s, a);
    }
  }

  lemma JobKeepsFiles(s: State, a: Action)
    requires Inv(s) && Enabled(s, a) && (a.Claim? || a.Expire? || a.Sweep?)
    ensures FilesOk(Next(s, a))
  {
    hide Base, Over, MayPurge, Drop, Rest, Retries, Clears, FilesOk;
    FilesLive(s);
    FilesFrame(s, Next(s, a));
  }

  /** The rows and keys are the same, and no worker has anything more to its name. */
  predicate SameStore(s: State, e: State) {
    && e.files == s.files && e.journal == s.journal && e.reclaiming == s.reclaiming && e.used == s.used && s.live <= e.live
    && e.workers.Keys == s.workers.Keys && forall t | t in s.workers :: e.workers[t].created == s.workers[t].created
  }

  lemma SameStoreKeeps(s: State, e: State)
    requires FilesOk(s) && SameStore(s, e)
    ensures FilesOk(e)
  {
    hide FilesOk;
    FilesLive(s);
    FilesFrame(s, e);
  }

  lemma TurnsKeepFiles(s: State, a: Action)
    requires Inv(s) && Enabled(s, a) && !Purges(a) && !Stores(a) && !a.Claim? && !a.Expire? && !a.Sweep?
    ensures FilesOk(Next(s, a))
  {
    hide Base, FilesOk, SameStore, Next, Enabled;
    if a.Release? || a.GiveUp? || a.Complete? {
      EndsSameStore(s, a);
    } else {
      TurnsSameStore(s, a);
    }
    SameStoreKeeps(s, Next(s, a));
  }

  lemma EndsSameStore(s: State, a: Action)
    requires Enabled(s, a) && (a.Release? || a.GiveUp? || a.Complete?)
    ensures SameStore(s, Next(s, a))
  {
    hide Over, MayPurge, Drop, Rest, Retries, Clears, FilesOf;
  }

  lemma TurnsSameStore(s: State, a: Action)
    requires Enabled(s, a) && (a.Crash? || a.CleanFailed? || a.Reset? || a.Put? || a.Mark? || a.Fail?)
    ensures SameStore(s, Next(s, a))
  {
    hide Over, MayPurge, Drop, Rest, Retries, Clears, FilesOf;
  }

  // ---------------------------------------------------------------- a worker without the token

  function Mover(a: Action): Option<Token> {
    match a
    case Crash(t) => Some(t)
    case CleanItem(t, _, _) => Some(t)
    case CleanFailed(t) => Some(t)
    case Reset(t, _) => Some(t)
    case Create(t, _, _) => Some(t)
    case Reserve(t, _, _, _) => Some(t)
    case Put(t, _) => Some(t)
    case Mark(t, _) => Some(t)
    case Fail(t, _) => Some(t)
    case UndoItem(t, _, _) => Some(t)
    case Release(t, _) => Some(t)
    case GiveUp(t, _) => Some(t)
    case Complete(t, _) => Some(t)
    case _ => None
  }

  /** Only `t` moved: the job row and the other workers are the same, and no row came to life. */
  predicate OnlyMoved(s: State, e: State, t: Token) {
    && t in s.workers && t in e.workers && e.workers == s.workers[t := e.workers[t]]
    && e.status == s.status && e.token == s.token && e.lease == s.lease && e.attempts == s.attempts && e.refs == s.refs
    && e.used == s.used && e.sweep == s.sweep && e.live <= s.used
    && forall i | i in e.live && !i.Object? :: i in s.live
  }

  lemma OnlyMovedKeeps(s: State, e: State, t: Token, extra: set<Item>)
    requires Base(s) && OnlyMoved(s, e, t) && s.token != Some(t) && WorkerOk(e, e.workers[t])
    requires Target(e.workers[t]) <= Target(s.workers[t]) + extra
    requires s.token.Some? ==> s.workers[s.token.value].created !! extra
    requires s.status == Completed ==> s.refs !! extra && forall k | k in e.files && k in e.refs :: e.files[k] in e.refs
    ensures Base(e)
  {
    hide Target;
    if s.token.Some? {
      var o := s.token.value;
      assert e.workers[o] == s.workers[o];
      assert forall u | u in e.workers && u != o && u != t :: s.workers[o].created !! Target(s.workers[u]);
    }
  }

  lemma StaleShape(s: State, a: Action, t: Token)
    requires Inv(s) && Enabled(s, a) && Mover(a) == Some(t) && s.token != Some(t)
    ensures OnlyMoved(s, Next(s, a), t)
  {
    hide Base, OnlyMoved, Over, Retries, FilesOk, MayPurge, Next, Enabled;
    if a.CleanItem? || a.UndoItem? {
      StalePurgeShape(s, a, t);
    } else {
      StaleOtherShape(s, a, t);
    }
  }

  lemma StalePurgeShape(s: State, a: Action, t: Token)
    requires Inv(s) && Enabled(s, a) && Mover(a) == Some(t) && (a.CleanItem? || a.UndoItem?)
    ensures OnlyMoved(s, Next(s, a), t)
  {
    hide RowsNamed, OwnerOk, Apart, Untouched, Target, Over, Retries, Drop, Rest, FilesOk, MayPurge;
    DropFrame(s, a.item);
  }

  lemma StaleOtherShape(s: State, a: Action, t: Token)
    requires Inv(s) && Enabled(s, a) && Mover(a) == Some(t) && s.token != Some(t) && !a.CleanItem? && !a.UndoItem?
    ensures OnlyMoved(s, Next(s, a), t)
  {
    hide RowsNamed, OwnerOk, Apart, Untouched, Target, Over, Retries, Drop, Rest, FilesOk, MayPurge, WorkerOk, Clears;
    if a.Put? {
      PutItem(s, t);
    }
  }

  lemma PutItem(s: State, t: Token)
    requires Inv(s) && t in s.workers && (s.workers[t].phase.Putting? || s.workers[t].phase.Marking?)
    ensures s.workers[t].phase.item in s.used && s.workers[t].phase.item in s.workers[t].created && s.workers[t].phase.item.Object?
  {
    assert WorkerOk(s, s.workers[t]);
  }

  lemma StaleWorker(s: State, a: Action, t: Token)
    requires Inv(s) && Enabled(s, a) && Mover(a) == Some(t) && s.token != Some(t)
    ensures t in Next(s, a).workers && WorkerOk(Next(s, a), Next(s, a).workers[t])
    ensures Target(Next(s, a).workers[t]) <= Target(s.workers[t]) + Extra(s, a)
  {
    hide Base, WorkerOk, Target, Extra, Over, Retries, FilesOk, MayPurge, Next, Enabled;
    if a.CleanItem? || a.UndoItem? {
      PurgeWorker(s, a, t);
    } else {
      StaleOtherWorker(s, a, t);
    }
  }

  lemma PurgeWorker(s: State, a: Action, t: Token)
    requires Inv(s) && Enabled(s, a) && Mover(a) == Some(t) && (a.CleanItem? || a.UndoItem?)
    ensures t in Next(s, a).workers && WorkerOk(Next(s, a), Next(s, a).workers[t])
    ensures Target(Next(s, a).workers[t]) <= Target(s.workers[t]) + Extra(s, a)
  {
    hide RowsNamed, OwnerOk, Apart, Untouched, Over, Retries, Drop, FilesOf, FilesOk;
    DropFrame(s, a.item);
    FilesAreObjects(s, a.item);
  }

  lemma StaleOtherWorker(s: State, a: Action, t: Token)
    requires Inv(s) && Enabled(s, a) && Mover(a) == Some(t) && s.token != Some(t) && !a.CleanItem? && !a.UndoItem?
    ensures t in Next(s, a).workers && WorkerOk(Next(s, a), Next(s, a).workers[t])
    ensures Target(Next(s, a).workers[t]) <= Target(s.workers[t])
  {
    hide Base, FilesOk, Drop, FilesOf, Rest, MayPurge, Over, Retries, Clears, Undo, WorkerOk, Target;
    var w := s.workers[t];
    KnownWorker(s, t);
    StaleOtherShape(s, a, t);
    NextPhase(s, w);
    var w' := Next(s, a).workers[t];
    assert || w' == w.(phase := Ended) || w' == w.(phase := Working) || w' == Undo(w, CleanupIncomplete) || w' == Undo(w, Other) || w' == Undo(w, Transient)
           || (w.phase.Putting? && w' == w.(phase := Marking(w.phase.item)));
    SameUsed(s, Next(s, a), w');
  }

  lemma KnownWorker(s: State, t: Token)
    requires Inv(s) && t in s.workers
    ensures WorkerOk(s, s.workers[t])
  {
  }

  lemma SameUsed(s: State, e: State, w: Worker)
    requires e.used == s.used && WorkerOk(s, w)
    ensures WorkerOk(e, w)
  {
  }

  /** Ending, going on and undoing are sound from any phase that does not clean up, and aim at nothing new. */
  lemma NextPhase(s: State, w: Worker)
    requires WorkerOk(s, w)
    ensures WorkerOk(s, w.(phase := Ended)) && Target(w.(phase := Ended)) == {}
    ensures WorkerOk(s, w.(phase := Working))
    ensures forall cause :: WorkerOk(s, Undo(w, cause))
    ensures !w.phase.Ended? ==> Target(w.(phase := Working)) <= Target(w) && forall cause :: Target(Undo(w, cause)) <= Target(w)
    ensures w.phase.Putting? ==> WorkerOk(s, w.(phase := Marking(w.phase.item))) && Target(w.(phase := Marking(w.phase.item))) == Target(w)
  {
  }

  lemma FilesAreObjects(s: State, item: Item)
    requires FilesOk(s)
    ensures FilesOf(s, item) <= s.used && forall k | k in FilesOf(s, item) :: k.Object?
  {
  }

  /** The keys of a row that the action purges. */
  function Extra(s: State, a: Action): set<Item> {
    match a
    case CleanItem(_, item, _) => if item.Object? then {} else FilesOf(s, item)
    case UndoItem(_, item, _) => if item.Object? then {} else FilesOf(s, item)
    case _ => {}
  }

  lemma ExtraIsApart(s: State, a: Action, t: Token)
    requires Inv(s) && Enabled(s, a) && Mover(a) == Some(t) && s.token != Some(t)
    ensures s.token.Some? ==> s.workers[s.token.value].created !! Extra(s, a)
    ensures s.status == Completed ==> s.refs !! Extra(s, a)
  {
    hide RowsNamed, OwnerOk, Over, Retries, WorkerOk, Next;
    if a.CleanItem? || a.UndoItem? {
      assert a.item in Target(s.workers[t]);
      if s.token.Some? {
        assert s.workers[s.token.value].created !! Target(s.workers[t]);
      }
    }
  }

  lemma FilesShrink(s: State, a: Action, t: Token)
    requires Inv(s) && Enabled(s, a) && Mover(a) == Some(t) && s.token != Some(t) && s.status == Completed
    ensures forall k | k in Next(s, a).files && k in Next(s, a).refs :: Next(s, a).files[k] in Next(s, a).refs
  {
    hide RowsNamed, OwnerOk, Over, Retries, WorkerOk, Target, MayPurge;
  }

  /** Whatever a superseded worker does, the job's invariant stands. */
  lemma StaleStep(s: State, a: Action, t: Token)
    requires Inv(s) && Enabled(s, a) && Mover(a) == Some(t) && s.token != Some(t)
    ensures Base(Next(s, a))
  {
    hide Base, FilesOk, Enabled, Next, Mover, OnlyMoved, Target, WorkerOk, Extra;
    StaleShape(s, a, t);
    StaleWorker(s, a, t);
    ExtraIsApart(s, a, t);
    if s.status == Completed {
      FilesShrink(s, a, t);
    }
    OnlyMovedKeeps(s, Next(s, a), t, Extra(s, a));
  }

  // ---------------------------------------------------------------- the worker with the token

  lemma HolderPurges(s: State, a: Action, t: Token)
    requires Inv(s) && Enabled(s, a) && Mover(a) == Some(t) && s.token == Some(t) && (a.CleanItem? || a.UndoItem?)
    ensures Base(Next(s, a))
  {
    hide FilesOk, Drop, FilesOf, Retries;
    DropFrame(s, a.item);
    FilesAreObjects(s, a.item);
  }

  lemma HolderCreates(s: State, t: Token, item: Item, reply: Reply)
    requires Inv(s) && Enabled(s, Create(t, item, reply)) && s.token == Some(t)
    ensures Base(Next(s, Create(t, item, reply)))
  {
    hide FilesOk, Drop, FilesOf, Rest, Retries, Over, MayPurge;
  }

  lemma HolderReserves(s: State, t: Token, item: Item, parent: Item, reply: Reply)
    requires Inv(s) && Enabled(s, Reserve(t, item, parent, reply)) && s.token == Some(t)
    ensures Base(Next(s, Reserve(t, item, parent, reply)))
  {
    hide FilesOk, Drop, FilesOf, Rest, Retries, Over, MayPurge;
  }

  lemma HolderTurns(s: State, a: Action, t: Token)
    requires Inv(s) && Enabled(s, a) && Mover(a) == Some(t) && s.token == Some(t) && (a.Crash? || a.CleanFailed?)
    ensures Base(Next(s, a))
  {
    hide FilesOk, Drop, FilesOf, Rest, Retries, Over, MayPurge;
  }

  lemma HolderPuts(s: State, a: Action, t: Token)
    requires Inv(s) && Enabled(s, a) && Mover(a) == Some(t) && s.token == Some(t) && a.Put?
    ensures Base(Next(s, a))
  {
    hide FilesOk, Drop, FilesOf, Rest, Retries, Over, MayPurge;
  }

  lemma HolderMarks(s: State, a: Action, t: Token)
    requires Inv(s) && Enabled(s, a) && Mover(a) == Some(t) && s.token == Some(t) && a.Mark?
    ensures Base(Next(s, a))
  {
    hide FilesOk, Drop, FilesOf, Rest, Retries, Over, MayPurge;
  }

  lemma HolderFails(s: State, a: Action, t: Token)
    requires Inv(s) && Enabled(s, a) && Mover(a) == Some(t) && s.token == Some(t) && a.Fail?
    ensures Base(Next(s, a))
  {
    hide FilesOk, Drop, FilesOf, Rest, Retries, Over, MayPurge;
  }

  lemma HolderResets(s: State, t: Token, reply: Reply)
    requires Inv(s) && Enabled(s, Reset(t, reply)) && s.token == Some(t)
    ensures Base(Next(s, Reset(t, reply)))
  {
    hide FilesOk, Drop, FilesOf, Rest, Retries, MayPurge;
  }

  lemma HolderReleases(s: State, t: Token, reply: Reply)
    requires Inv(s) && Enabled(s, Release(t, reply)) && s.token == Some(t)
    ensures Base(Next(s, Release(t, reply)))
  {
    hide FilesOk, Drop, FilesOf, Rest, MayPurge;
  }

  lemma HolderFinishes(s: State, a: Action, t: Token)
    requires Inv(s) && Enabled(s, a) && Mover(a) == Some(t) && s.token == Some(t) && (a.GiveUp? || a.Complete?)
    ensures Base(Next(s, a))
  {
    hide Drop, FilesOf, Rest, MayPurge, Retries, Over;
  }

  // ---------------------------------------------------------------- everything else

  lemma ClaimKeeps(s: State, t: Token)
    requires Inv(s) && Enabled(s, Claim(t))
    ensures Base(Next(s, Claim(t)))
  {
    hide FilesOk, Drop, FilesOf, Rest, MayPurge, Retries, Over;
  }

  lemma GoneKeeps(s: State, item: Item)
    requires Inv(s) && Enabled(s, Gone(item))
    ensures Base(Next(s, Gone(item)))
  {
    hide FilesOf, Rest, MayPurge, Retries, Over;
  }

  lemma SweepKeeps(s: State, a: Action)
    requires Inv(s) && Enabled(s, a) && (a.Sweep? || a.SweepItem?)
    ensures Base(Next(s, a))
  {
    hide Retries, Over;
  }

  lemma StorageKeeps(s: State, a: Action)
    requires Inv(s) && Enabled(s, a) && (a.Expire? || a.Upload? || a.Detach? || a.ReclaimStart? || a.ReclaimEnd?)
    ensures Base(Next(s, a))
  {
    hide Drop, FilesOf, Rest, MayPurge, Retries, Over;
  }

  lemma HolderStep(s: State, a: Action, t: Token)
    requires Inv(s) && Enabled(s, a) && Mover(a) == Some(t) && s.token == Some(t)
    ensures Base(Next(s, a))
  {
    hide Base, FilesOk, Enabled, Next;
    match a
    case CleanItem(_, _, _) => HolderPurges(s, a, t);
    case UndoItem(_, _, _) => HolderPurges(s, a, t);
    case Create(_, item, reply) => HolderCreates(s, t, item, reply);
    case Reserve(_, item, parent, reply) => HolderReserves(s, t, item, parent, reply);
    case Reset(_, reply) => HolderResets(s, t, reply);
    case Release(_, reply) => HolderReleases(s, t, reply);
    case GiveUp(_, _) => HolderFinishes(s, a, t);
    case Complete(_, _) => HolderFinishes(s, a, t);
    case Put(_, _) => HolderPuts(s, a, t);
    case Mark(_, _) => HolderMarks(s, a, t);
    case Fail(_, _) => HolderFails(s, a, t);
    case _ => HolderTurns(s, a, t);
  }

  lemma FilesStep(s: State, a: Action)
    requires Inv(s) && Enabled(s, a)
    ensures FilesOk(Next(s, a))
  {
    hide Inv, FilesOk, Enabled, Next;
    match a
    case Create(t, item, reply) => CreateKeepsFiles(s, t, item, reply);
    case Reserve(t, item, parent, reply) => ReserveKeepsFiles(s, t, item, parent, reply);
    case Upload(_, _) => JournalKeepsFiles(s, a);
    case Detach(_) => JournalKeepsFiles(s, a);
    case ReclaimStart(_) => JournalKeepsFiles(s, a);
    case ReclaimEnd(_, _) => JournalKeepsFiles(s, a);
    case Gone(_) => PurgesKeepFiles(s, a);
    case CleanItem(_, _, _) => PurgesKeepFiles(s, a);
    case UndoItem(_, _, _) => PurgesKeepFiles(s, a);
    case SweepItem(_, _) => PurgesKeepFiles(s, a);
    case _ => OthersKeepFiles(s, a);
  }

  /** Every action keeps the invariant. */
  lemma NextInv(s: State, a: Action)
    requires Inv(s) && Enabled(s, a)
    ensures Inv(Next(s, a))
  {
    hide Base, FilesOk, Enabled, Next;
    FilesStep(s, a);
    if Mover(a).Some? {
      var t := Mover(a).value;
      if s.token == Some(t) {
        HolderStep(s, a, t);
      } else {
        StaleStep(s, a, t);
      }
    } else {
      match a
      case Claim(t) => ClaimKeeps(s, t);
      case Gone(item) => GoneKeeps(s, item);
      case Sweep => SweepKeeps(s, a);
      case SweepItem(_, _) => SweepKeeps(s, a);
      case Expire => StorageKeeps(s, a);
      case Upload(_, _) => StorageKeeps(s, a);
      case Detach(_) => StorageKeeps(s, a);
      case ReclaimStart(_) => StorageKeeps(s, a);
      case ReclaimEnd(_, _) => StorageKeeps(s, a);
    }
  }

  // ---------------------------------------------------------------- what a move can touch

  /** The identity a move gives out, if any. */
  function Made(s: State, a: Action): set<Item> {
    match a
    case Create(_, item, _) => {item} - s.used
    case Reserve(_, item, _, _) => {item} - s.used
    case _ => {}
  }

  /** Outside purges a worker takes nothing away and adds at most the new identity. */
  predicate Framed(s: State, e: State, t: Token, made: set<Item>) {
    && t in s.workers && t in e.workers && e.workers == s.workers[t := e.workers[t]]
    && s.live <= e.live && e.refs <= s.refs + made && e.files.Keys <= s.files.Keys + made
    && e.journal == s.journal && e.reclaiming == s.reclaiming && e.sweep == s.sweep && s.used <= e.used
    && (forall k | k in s.files && k in s.used :: k in e.files && e.files[k] == s.files[k])
    && (s.status != Running ==> e.status == s.status && e.refs == s.refs)
  }

  lemma MoveFrame(s: State, a: Action, t: Token)
    requires Enabled(s, a) && Mover(a) == Some(t) && !Purges(a)
    ensures Framed(s, Next(s, a), t, Made(s, a))
  {
    hide Framed, Next, Enabled, Made;
    match a
    case Create(_, item, reply) => CreateFrame(s, t, item, reply);
    case Reserve(_, item, parent, reply) => ReserveFrame(s, t, item, parent, reply);
    case _ => TurnFrame(s, a, t);
  }

  lemma CreateFrame(s: State, t: Token, item: Item, reply: Reply)
    requires Enabled(s, Create(t, item, reply))
    ensures Framed(s, Next(s, Create(t, item, reply)), t, Made(s, Create(t, item, reply)))
  {
    hide Over, Retries, Clears, Drop, FilesOf, Rest, MayPurge;
  }

  lemma ReserveFrame(s: State, t: Token, item: Item, parent: Item, reply: Reply)
    requires Enabled(s, Reserve(t, item, parent, reply))
    ensures Framed(s, Next(s, Reserve(t, item, parent, reply)), t, Made(s, Reserve(t, item, parent, reply)))
  {
    hide Over, Retries, Clears, Drop, FilesOf, Rest, MayPurge;
  }

  lemma TurnFrame(s: State, a: Action, t: Token)
    requires Enabled(s, a) && Mover(a) == Some(t) && !Purges(a) && !a.Create? && !a.Reserve?
    ensures Framed(s, Next(s, a), t, Made(s, a))
  {
    hide Over, Retries, Clears, Drop, FilesOf, Rest, MayPurge;
  }

  lemma MoveTarget(s: State, a: Action, t: Token)
    requires Inv(s) && Enabled(s, a) && Mover(a) == Some(t) && !Purges(a)
    ensures t in s.workers && t in Next(s, a).workers && Target(Next(s, a).workers[t]) <= Target(s.workers[t]) + Made(s, a)
  {
    hide Base, FilesOk, Over, Retries, Clears, Drop, FilesOf, Rest, MayPurge, WorkerOk, Target, Undo;
    var w := s.workers[t];
    KnownWorker(s, t);
    NextPhase(s, w);
    MadeTarget(w, Made(s, a));
    var w' := Next(s, a).workers[t];
    assert || w' == w.(phase := Ended) || w' == w.(phase := Working) || w' == Undo(w, CleanupIncomplete) || w' == Undo(w, Other) || w' == Undo(w, Transient)
           || (w.phase.Putting? && w' == w.(phase := Marking(w.phase.item)))
           || (w.phase.Working? && w'.phase.Working? && w' == w.(created := w.created + Made(s, a)))
           || (w.phase.Working? && exists i :: w' == w.(created := w.created + Made(s, a), phase := Putting(i)));
  }

  lemma MadeTarget(w: Worker, made: set<Item>)
    ensures w.phase.Working? ==> Target(w.(created := w.created + made)) == Target(w) + made
    ensures w.phase.Working? ==> forall i :: Target(w.(created := w.created + made, phase := Putting(i))) == Target(w) + made
  {
  }

  // ---------------------------------------------------------------- safety over whole runs

  lemma {:induction false} RunInv(s: State, actions: seq<Action>, end: State)
    requires Inv(s) && Run(s, actions, end)
    ensures Inv(end)
    decreases |actions|
  {
    hide Inv, Next, Enabled;
    if actions != [] {
      NextInv(s, actions[0]);
      RunInv(Next(s, actions[0]), actions[1..], end);
    }
  }

  /** After any run, every live document and task an import created is named by the durable references. */
  lemma {:induction false} LiveRowsAreNamed(actions: seq<Action>, end: State)
    requires Run(Initial, actions, end)
    ensures forall i | i in end.live && !i.Object? :: i in end.refs
  {
    hide Run, Next;
    InitialInv();
    RunInv(Initial, actions, end);
  }

  /** References are dropped by a reset or by a release after a transient failure, all at once, and only when no row they name is left. */
  lemma {:induction false} ClearedOnlyWhenGone(actions: seq<Action>, s: State, a: Action, lost: Item)
    requires Run(Initial, actions, s) && Enabled(s, a) && lost in s.refs && lost !in Next(s, a).refs
    ensures forall i | i in s.refs && !i.Object? :: i !in s.live
    ensures Next(s, a).refs == {}
    ensures a.Reset? || (a.Release? && s.workers[a.t].phase.cause == Transient && s.workers[a.t].phase.failed == 0)
  {
    hide Run, Next, Enabled, Base, FilesOk;
    InitialInv();
    RunInv(Initial, actions, s);
    ClearingStep(s, a, lost);
  }

  lemma ClearingStep(s: State, a: Action, lost: Item)
    requires Inv(s) && Enabled(s, a) && lost in s.refs && lost !in Next(s, a).refs
    ensures forall i | i in s.refs && !i.Object? :: i !in s.live
    ensures Next(s, a).refs == {}
    ensures a.Reset? || (a.Release? && s.workers[a.t].phase.cause == Transient && s.workers[a.t].phase.failed == 0)
  {
    hide FilesOk, Drop, FilesOf, Rest, MayPurge, Apart, Untouched, RowsNamed, WorkerOk, Target;
    if a.CleanItem? || a.UndoItem? || a.Gone? || a.SweepItem? {
      DropFrame(s, a.item);
    }
    var w := s.workers[s.token.value];
    assert OwnerOk(s, w);
    assert Purged(s, s.refs, w.phase.todo);
  }

  function Claims(actions: seq<Action>): nat {
    if actions == [] then 0 else (if actions[0].Claim? then 1 else 0) + Claims(actions[1..])
  }

  lemma {:induction false} AttemptsCountClaims(s: State, actions: seq<Action>, end: State)
    requires Run(s, actions, end)
    ensures end.attempts == s.attempts + Claims(actions)
    decreases |actions|
  {
    if actions != [] {
      AttemptsCountClaims(Next(s, actions[0]), actions[1..], end);
    }
  }

  /** A job is claimed at most twice, and one released for retry can be claimed again. */
  lemma {:induction false} RetriesAreBounded(actions: seq<Action>, s: State)
    requires Run(Initial, actions, s)
    ensures Claims(actions) <= MAX_ATTEMPTS
    ensures forall t, reply | Enabled(s, Release(t, reply)) && Owned(s, t) && reply != Refused ::
      var end := Next(s, Release(t, reply)); end.status == Running && end.token == None && end.attempts < MAX_ATTEMPTS
  {
    hide Run, FilesOk, Drop, FilesOf, Rest, MayPurge, Apart, Untouched, RowsNamed, OwnerOk, Target;
    InitialInv();
    AttemptsCountClaims(Initial, actions, s);
    RunInv(Initial, actions, s);
  }

  /** Users leave the item alone: neither it nor, for an object, the row it is attached to is removed, nor is it detached. */
  ghost predicate SparedByUsers(actions: seq<Action>, item: Item, row: Item) {
    forall n | 0 <= n < |actions| :: actions[n] != Gone(row) && actions[n] != Detach(item)
  }

  /** A live row, or an object with its attachment row, that the references name. */
  predicate Stands(s: State, item: Item, row: Item) {
    item in s.refs && item in s.live && if item.Object? then item in s.files && s.files[item] == row else row == item
  }

  lemma CompletedStep(s: State, a: Action, item: Item, row: Item)
    requires Inv(s) && s.status == Completed && Enabled(s, a) && Stands(s, item, row) && a != Gone(row) && a != Detach(item)
    ensures Next(s, a).status == Completed && Next(s, a).refs == s.refs && Stands(Next(s, a), item, row)
  {
    hide Inv, Stands, Next, Enabled;
    if Purges(a) {
      CompletedPurge(s, a, item, row);
    } else {
      CompletedOther(s, a, item, row);
    }
  }

  lemma CompletedPurge(s: State, a: Action, item: Item, row: Item)
    requires Inv(s) && s.status == Completed && Enabled(s, a) && Stands(s, item, row) && Purges(a) && a != Gone(row)
    ensures Next(s, a).status == Completed && Next(s, a).refs == s.refs && Stands(Next(s, a), item, row)
  {
    hide RowsNamed, OwnerOk, Apart, WorkerOk, Over, Retries, Rest;
    assert row in s.refs;
    if a.CleanItem? || a.UndoItem? {
      assert s.refs !! Target(s.workers[a.t]);
    }
  }

  lemma CompletedOther(s: State, a: Action, item: Item, row: Item)
    requires Inv(s) && s.status == Completed && Enabled(s, a) && Stands(s, item, row) && !Purges(a) && a != Detach(item)
    ensures Next(s, a).status == Completed && Next(s, a).refs == s.refs && Stands(Next(s, a), item, row)
  {
    hide Base, FilesOk, Made;
    KnownFile(s, item);
    if Mover(a).Some? {
      hide Next, Enabled;
      MoveFrame(s, a, Mover(a).value);
    } else {
      CompletedAround(s, a, item, row);
    }
  }

  lemma KnownFile(s: State, item: Item)
    requires Inv(s)
    ensures item in s.files ==> item in s.used && item !in s.journal
    ensures forall k | k in s.journal :: k.Object?
  {
  }

  lemma CompletedAround(s: State, a: Action, item: Item, row: Item)
    requires s.status == Completed && Enabled(s, a) && Stands(s, item, row) && Mover(a) == None && !Purges(a) && a != Detach(item)
    requires item in s.files ==> item in s.used && item !in s.journal
    requires forall k | k in s.journal :: k.Object?
    ensures Next(s, a).status == Completed && Next(s, a).refs == s.refs && Stands(Next(s, a), item, row)
  {
    hide Over, Retries, Clears, Drop, FilesOf, Rest, MayPurge;
  }

  /** What a completed import created is never undone: only its users can remove it. */
  lemma {:induction false} CompletedIsKept(s: State, actions: seq<Action>, end: State, item: Item, row: Item)
    requires Inv(s) && s.status == Completed && Run(s, actions, end) && Stands(s, item, row) && SparedByUsers(actions, item, row)
    ensures end.status == Completed && end.refs == s.refs && Stands(end, item, row)
    decreases |actions|
  {
    hide Inv, Next, Enabled, Stands;
    if actions != [] {
      NextInv(s, actions[0]);
      CompletedStep(s, actions[0], item, row);
      assert forall n | 0 <= n < |actions| - 1 :: actions[1..][n] == actions[n + 1];
      CompletedIsKept(Next(s, actions[0]), actions[1..], end, item, row);
    }
  }

  // ---------------------------------------------------------------- objects

  /** An attachment row, or a journal entry that no reclaim has acted on: what makes sure that the object is found again. */
  predicate Held(s: State, item: Item) {
    item in s.files || (item in s.journal && item !in s.reclaiming)
  }

  predicate ObjectsHeld(s: State) {
    forall i | i in s.live && i.Object? :: Held(s, i)
  }

  /** A put is safe while its object is held. Only the put itself is not fenced. */
  predicate PutSafe(s: State, t: Token)
    requires t in s.workers && s.workers[t].phase.Putting?
  {
    Held(s, s.workers[t].phase.item)
  }

  predicate Safe(s: State, a: Action) {
    a.Put? && a.reply != Refused && a.t in s.workers && s.workers[a.t].phase.Putting? ==> PutSafe(s, a.t)
  }

  lemma PutShape(s: State, t: Token, reply: Reply)
    requires Inv(s) && Enabled(s, Put(t, reply)) && reply != Refused
    ensures var e, item := Next(s, Put(t, reply)), s.workers[t].phase.item;
            && item.Object? && item in s.used && e.live == s.live + {item}
            && e.files == s.files && e.journal == s.journal && e.reclaiming == s.reclaiming
  {
    hide Base, FilesOk, Drop, FilesOf, Over, MayPurge, Rest;
    PutItem(s, t);
  }

  /** A put keeps every object held exactly when it is safe. */
  lemma PutKeepsObjects(s: State, t: Token, reply: Reply)
    requires Inv(s) && ObjectsHeld(s) && Enabled(s, Put(t, reply)) && reply != Refused
    ensures ObjectsHeld(Next(s, Put(t, reply))) <==> PutSafe(s, t)
  {
    hide Inv, Next;
    PutShape(s, t, reply);
    assert s.workers[t].phase.item in Next(s, Put(t, reply)).live;
  }

  lemma DropKeepsObjects(s: State, item: Item)
    requires FilesOk(s) && ObjectsHeld(s)
    ensures ObjectsHeld(Drop(s, item))
  {
  }

  lemma PurgesKeepObjects(s: State, a: Action)
    requires Inv(s) && ObjectsHeld(s) && Enabled(s, a) && Purges(a)
    ensures ObjectsHeld(Next(s, a))
  {
    hide Base, FilesOk, Drop, Rest, MayPurge, FilesOf;
    DropKeepsObjects(s, a.item);
    assert forall i :: Held(Next(s, a), i) <==> Held(if a.Gone? || a.purged then Drop(s, a.item) else s, i);
  }

  lemma JournalKeepsObjects(s: State, a: Action)
    requires Inv(s) && ObjectsHeld(s) && Enabled(s, a) && (a.Upload? || a.Detach? || a.ReclaimStart? || a.ReclaimEnd?)
    ensures ObjectsHeld(Next(s, a))
  {
    hide Base, Drop, Rest, MayPurge, FilesOf, Over, Retries;
  }

  lemma MakesKeepObjects(s: State, a: Action)
    requires ObjectsHeld(s) && Enabled(s, a) && (a.Create? || a.Reserve?)
    ensures ObjectsHeld(Next(s, a))
  {
    hide Drop, Rest, MayPurge, FilesOf, Over, Retries;
  }

  lemma JobKeepsObjects(s: State, a: Action)
    requires ObjectsHeld(s) && Enabled(s, a) && (a.Claim? || a.Expire? || a.Sweep? || a.Release? || a.GiveUp? || a.Complete?)
    ensures ObjectsHeld(Next(s, a))
  {
    hide Drop, Rest, MayPurge, FilesOf, Over, Retries, Clears;
  }

  lemma TurnsKeepObjects(s: State, a: Action)
    requires ObjectsHeld(s) && Enabled(s, a) && (a.Crash? || a.CleanFailed? || a.Reset? || a.Mark? || a.Fail? || (a.Put? && a.reply == Refused))
    ensures ObjectsHeld(Next(s, a))
  {
    hide Drop, Rest, MayPurge, FilesOf, Over, Retries;
  }

  /** Every other action, reclaiming included, keeps every object held. */
  lemma OthersKeepObjects(s: State, a: Action)
    requires Inv(s) && ObjectsHeld(s) && Enabled(s, a) && !(a.Put? && a.reply != Refused)
    ensures ObjectsHeld(Next(s, a))
  {
    hide Inv, ObjectsHeld, Next, Enabled;
    if Purges(a) {
      PurgesKeepObjects(s, a);
    } else if a.Upload? || a.Detach? || a.ReclaimStart? || a.ReclaimEnd? {
      JournalKeepsObjects(s, a);
    } else if a.Create? || a.Reserve? {
      MakesKeepObjects(s, a);
    } else if a.Claim? || a.Expire? || a.Sweep? || a.Release? || a.GiveUp? || a.Complete? {
      JobKeepsObjects(s, a);
    } else {
      TurnsKeepObjects(s, a);
    }
  }

  ghost predicate SafeRun(s: State, actions: seq<Action>)
    decreases |actions|
  {
    actions == [] || (Enabled(s, actions[0]) && Safe(s, actions[0]) && SafeRun(Next(s, actions[0]), actions[1..]))
  }

  lemma SafeStep(s: State, a: Action)
    requires Inv(s) && ObjectsHeld(s) && Enabled(s, a) && Safe(s, a)
    ensures ObjectsHeld(Next(s, a))
  {
    hide Inv, ObjectsHeld, Next;
    if a.Put? && a.reply != Refused {
      PutKeepsObjects(s, a.t, a.reply);
    } else {
      OthersKeepObjects(s, a);
    }
  }

  /** As long as every put is safe, every object has its attachment row or a journal entry. */
  lemma {:induction false} SafeRunHoldsObjects(s: State, actions: seq<Action>, end: State)
    requires Inv(s) && ObjectsHeld(s) && Run(s, actions, end) && SafeRun(s, actions)
    ensures Inv(end) && ObjectsHeld(end)
    decreases |actions|
  {
    hide Inv, Next, Enabled, Safe, ObjectsHeld;
    if actions != [] {
      NextInv(s, actions[0]);
      SafeStep(s, actions[0]);
      SafeRunHoldsObjects(Next(s, actions[0]), actions[1..], end);
    }
  }

  // ---------------------------------------------------------------- the lease holder's put

  lemma TokenIsLostForGood(s: State, a: Action, t: Token)
    requires Enabled(s, a) && t in s.workers && s.token != Some(t)
    ensures t in Next(s, a).workers && Next(s, a).token != Some(t)
  {
    hide Drop, Rest, MayPurge, FilesOf, Over, Retries, Clears;
    if Purges(a) {
      DropFrame(s, a.item);
    }
  }

  lemma {:induction false} TokenWasHeld(s: State, actions: seq<Action>, end: State, t: Token)
    requires Run(s, actions, end) && t in s.workers && end.token == Some(t)
    ensures s.token == Some(t)
    decreases |actions|
  {
    hide Next, Enabled;
    if actions != [] && s.token != Some(t) {
      TokenIsLostForGood(s, actions[0], t);
      TokenWasHeld(Next(s, actions[0]), actions[1..], end, t);
    }
  }

  /** The worker is about to put, and the attachment row of its key stands. */
  predicate ReadyToPut(s: State, t: Token, item: Item, row: Item) {
    t in s.workers && s.workers[t].phase == Putting(item) && item in s.files && s.files[item] == row
  }

  lemma HolderKeepsRow(s: State, a: Action, t: Token, item: Item, row: Item)
    requires Inv(s) && Enabled(s, a) && s.token == Some(t) && ReadyToPut(s, t, item, row)
    requires a != Gone(row) && a != Detach(item) && Mover(a) != Some(t)
    ensures ReadyToPut(Next(s, a), t, item, row)
  {
    hide Base, FilesOk, ReadyToPut, Next, Enabled;
    if Purges(a) {
      HolderRowSpared(s, a, t, item, row);
    } else if Mover(a).Some? {
      HolderRowPassed(s, a, t, item, row);
    } else {
      HolderRowAround(s, a, t, item, row);
    }
  }

  lemma HolderRowSpared(s: State, a: Action, t: Token, item: Item, row: Item)
    requires Inv(s) && Enabled(s, a) && s.token == Some(t) && ReadyToPut(s, t, item, row) && Purges(a) && a != Gone(row) && Mover(a) != Some(t)
    ensures ReadyToPut(Next(s, a), t, item, row)
  {
    hide RowsNamed, OwnerOk, Untouched, Over, Retries, Rest;
    assert WorkerOk(s, s.workers[t]);
    assert row in s.workers[t].created;
    if a.CleanItem? || a.UndoItem? {
      assert s.workers[t].created !! Target(s.workers[a.t]);
    }
  }

  lemma HolderRowPassed(s: State, a: Action, t: Token, item: Item, row: Item)
    requires Inv(s) && Enabled(s, a) && ReadyToPut(s, t, item, row) && !Purges(a) && Mover(a).Some? && Mover(a) != Some(t)
    ensures ReadyToPut(Next(s, a), t, item, row)
  {
    hide Base, FilesOk, Next, Enabled, Made;
    KnownFile(s, item);
    MoveFrame(s, a, Mover(a).value);
  }

  lemma HolderRowAround(s: State, a: Action, t: Token, item: Item, row: Item)
    requires Inv(s) && Enabled(s, a) && ReadyToPut(s, t, item, row) && !Purges(a) && Mover(a) == None && a != Detach(item)
    ensures ReadyToPut(Next(s, a), t, item, row)
  {
    hide Base, Over, Retries, Clears, Drop, FilesOf, Rest, MayPurge;
  }

  /** From the reservation on, the lease holder's put stays safe unless a user removes the document or the attachment meanwhile. */
  lemma {:induction false} HolderPutIsSafe(s: State, actions: seq<Action>, end: State, t: Token, item: Item, row: Item)
    requires Inv(s) && Run(s, actions, end) && end.token == Some(t) && ReadyToPut(s, t, item, row)
    requires SparedByUsers(actions, item, row) && forall n | 0 <= n < |actions| :: Mover(actions[n]) != Some(t)
    ensures ReadyToPut(end, t, item, row) && PutSafe(end, t)
    decreases |actions|
  {
    hide Inv, Next, Enabled, Mover;
    TokenWasHeld(s, actions, end, t);
    if actions != [] {
      NextInv(s, actions[0]);
      HolderKeepsRow(s, actions[0], t, item, row);
      assert forall n | 0 <= n < |actions| - 1 :: actions[1..][n] == actions[n + 1];
      HolderPutIsSafe(Next(s, actions[0]), actions[1..], end, t, item, row);
    }
  }

  /** The fenced finaliser lets a worker go on only while it holds the lease and the attachment row stands. */
  lemma MarkNeedsRow(s: State, t: Token, reply: Reply)
    requires Enabled(s, Mark(t, reply))
    ensures Next(s, Mark(t, reply)).workers[t].phase.Working? <==> reply == Ack && Owned(s, t) && s.workers[t].phase.item in s.files
  {
    hide Drop, Rest, MayPurge, FilesOf, Over, Retries;
  }

  // ---------------------------------------------------------------- cleared references and objects

  /**
    * When references are cleared, an object they name has no attachment row left. If every put so far was
    * safe and the object is live, a put fell between its purge and the clearing: the journal still has it.
    */
  lemma {:induction false} ClearedObjectsAreJournaled(actions: seq<Action>, s: State, a: Action, item: Item)
    requires Run(Initial, actions, s) && Enabled(s, a) && item in s.refs && item !in Next(s, a).refs && item.Object?
    ensures item !in s.files
    ensures SafeRun(Initial, actions) && item in s.live ==> item in s.journal && item !in s.reclaiming
  {
    hide Run, Next, Enabled, Base, SafeRun, ObjectsHeld;
    InitialInv();
    RunInv(Initial, actions, s);
    ClearingStep(s, a, item);
    FileRowIsNamed(s, item);
    if SafeRun(Initial, actions) {
      NoObjectsYet();
      SafeRunHoldsObjects(Initial, actions, s);
      HeldMeans(s, item);
    }
  }

  lemma NoObjectsYet()
    ensures ObjectsHeld(Initial)
  {
  }

  lemma HeldMeans(s: State, item: Item)
    requires ObjectsHeld(s) && item.Object?
    ensures item in s.live ==> Held(s, item)
  {
  }

  lemma FileRowIsNamed(s: State, item: Item)
    requires Inv(s)
    ensures item in s.files ==> s.files[item] in s.live && s.files[item] in s.refs && !s.files[item].Object?
  {
    hide OwnerOk, Apart, Untouched, WorkerOk, Target;
  }

  // ---------------------------------------------------------------- how an object is lost

  /** Something leads a later step to the object: an attachment row, the journal, the references of a running job, or a sweep that may still purge it. */
  predicate Named(s: State, item: Item) {
    item in s.files || item in s.journal || (s.status == Running && item in s.refs) || (item in s.sweep && s.sweepFailed == 0)
  }

  /** Nobody will ever look for the object again. */
  predicate Abandoned(s: State, item: Item) {
    && item in s.live && item in s.used && item.Object? && !Named(s, item) && item !in s.reclaiming
    && forall t | t in s.workers :: item !in Target(s.workers[t])
  }

  lemma AbandonedStep(s: State, a: Action, item: Item)
    requires Inv(s) && Abandoned(s, item) && Enabled(s, a)
    ensures Abandoned(Next(s, a), item)
  {
    hide Base, FilesOk, Abandoned, Next, Enabled;
    if Purges(a) {
      AbandonedByPurge(s, a, item);
    } else if Mover(a).Some? {
      AbandonedByWorker(s, a, Mover(a).value, item);
    } else {
      AbandonedByOthers(s, a, item);
    }
  }

  lemma AbandonedByPurge(s: State, a: Action, item: Item)
    requires Inv(s) && Abandoned(s, item) && Enabled(s, a) && Purges(a)
    ensures Abandoned(Next(s, a), item)
  {
    hide Base, FilesOk, Abandoned, Next, Enabled;
    match a
    case Gone(row) => AbandonedByUser(s, row, item);
    case SweepItem(x, purged) => AbandonedBySweep(s, x, purged, item);
    case CleanItem(t, x, purged) => AbandonedByCleaner(s, t, x, purged, item);
    case UndoItem(t, x, purged) => AbandonedByUndo(s, t, x, purged, item);
  }

  lemma AbandonedByUser(s: State, row: Item, item: Item)
    requires Abandoned(s, item) && Enabled(s, Gone(row))
    ensures Abandoned(Next(s, Gone(row)), item)
  {
    hide Over, MayPurge, Rest, Target, Retries;
  }

  lemma AbandonedBySweep(s: State, x: Item, purged: bool, item: Item)
    requires Abandoned(s, item) && Enabled(s, SweepItem(x, purged))
    ensures Abandoned(Next(s, SweepItem(x, purged)), item)
  {
    hide Over, Target, Retries;
  }

  lemma AbandonedByCleaner(s: State, t: Token, x: Item, purged: bool, item: Item)
    requires Abandoned(s, item) && Enabled(s, CleanItem(t, x, purged))
    ensures Abandoned(Next(s, CleanItem(t, x, purged)), item)
  {
    hide Over, Retries;
    assert x in Target(s.workers[t]);
  }

  lemma AbandonedByUndo(s: State, t: Token, x: Item, purged: bool, item: Item)
    requires Abandoned(s, item) && Enabled(s, UndoItem(t, x, purged))
    ensures Abandoned(Next(s, UndoItem(t, x, purged)), item)
  {
    hide Over, Retries;
    assert x in Target(s.workers[t]);
  }

  lemma AbandonedByWorker(s: State, a: Action, t: Token, item: Item)
    requires Inv(s) && Abandoned(s, item) && Enabled(s, a) && !Purges(a) && Mover(a) == Some(t)
    ensures Abandoned(Next(s, a), item)
  {
    hide Base, FilesOk, Target, Next, Enabled;
    MoveFrame(s, a, t);
    MoveStatus(s, a, t);
    MoveTarget(s, a, t);
  }

  lemma MoveStatus(s: State, a: Action, t: Token)
    requires Enabled(s, a) && Mover(a) == Some(t) && !Purges(a)
    ensures Next(s, a).status == Running ==> s.status == Running
    ensures Next(s, a).sweepFailed == s.sweepFailed
  {
    hide Over, Retries, Clears, Drop, FilesOf, Rest, MayPurge;
  }

  lemma AbandonedByOthers(s: State, a: Action, item: Item)
    requires Inv(s) && Abandoned(s, item) && Enabled(s, a) && !Purges(a) && Mover(a) == None
    ensures Abandoned(Next(s, a), item)
  {
    hide Base, Over, Drop, FilesOf, Rest, MayPurge, Retries, Clears;
  }

  /** An abandoned object stays, whatever happens after. */
  lemma {:induction false} AbandonedStays(s: State, actions: seq<Action>, end: State, item: Item)
    requires Inv(s) && Abandoned(s, item) && Run(s, actions, end)
    ensures item in end.live && !Named(end, item)
    decreases |actions|
  {
    hide Inv, Next, Enabled, Target;
    if actions != [] {
      NextInv(s, actions[0]);
      AbandonedStep(s, actions[0], item);
      AbandonedStays(Next(s, actions[0]), actions[1..], end, item);
    }
  }

  /** Some run abandons the object. */
  ghost predicate CanLeak(s: State, item: Item) {
    exists actions, end :: Run(s, actions, end) && Abandoned(end, item)
  }

  lemma {:induction false} Prepend(s: State, a: Action, actions: seq<Action>, end: State)
    requires Enabled(s, a) && Run(Next(s, a), actions, end)
    ensures Run(s, [a] + actions, end)
  {
    hide Next, Enabled;
    assert ([a] + actions)[1..] == actions;
  }

  lemma LeakAfter(s: State, a: Action, item: Item)
    requires Enabled(s, a) && CanLeak(Next(s, a), item)
    ensures CanLeak(s, item)
  {
    hide Next, Enabled, Abandoned;
    var actions, end :| Run(Next(s, a), actions, end) && Abandoned(end, item);
    Prepend(s, a, actions, end);
  }

  lemma LeakNow(s: State, item: Item)
    requires Abandoned(s, item)
    ensures CanLeak(s, item)
  {
    hide Abandoned;
    assert Run(s, [], s);
  }

  /** A live object without attachment row and journal entry. */
  predicate Loose(s: State, item: Item) {
    item in s.live && item in s.used && item.Object? && item !in s.files && item !in s.journal
  }

  /** The workers that would still purge the object. */
  function Aiming(s: State, item: Item): set<Token> {
    set t | t in s.workers && item in Target(s.workers[t])
  }

  lemma CrashShape(s: State, t: Token, item: Item)
    requires Inv(s) && t in s.workers && Loose(s, item)
    ensures var e := Next(s, Crash(t)); Inv(e) && Loose(e, item) && Aiming(e, item) == Aiming(s, item) - {t} && e.workers.Keys == s.workers.Keys
    ensures var e := Next(s, Crash(t)); e.status == s.status && e.token == s.token && e.lease == s.lease && e.refs == s.refs && e.sweep == s.sweep && e.attempts == s.attempts
  {
    hide Base, FilesOk, Over, Drop, FilesOf, Rest, MayPurge, Retries, Clears;
    NextInv(s, Crash(t));
  }

  /** A sweep that is not over can fail on a row, or on the object itself, and then leaves the object. */
  lemma SweepCanLeak(s: State, item: Item)
    requires Inv(s) && Loose(s, item) && s.status == Failed && Aiming(s, item) == {}
    ensures CanLeak(s, item)
  {
    hide Base, FilesOk, CanLeak, Over, Drop, FilesOf, Retries, Clears, Target;
    assert forall t | t in s.workers :: item !in Target(s.workers[t]) by { NobodyAims(s, item); }
    ReclaimsAreJournaled(s);
    if item in s.sweep && s.sweepFailed == 0 {
      var x: Item;
      if y :| y in s.sweep && !y.Object? {
        x := y;
      } else {
        x := item;
      }
      var a := SweepItem(x, false);
      LeakNow(Next(s, a), item);
      LeakAfter(s, a, item);
    } else {
      LeakNow(s, item);
    }
  }

  lemma NobodyAims(s: State, item: Item)
    requires Aiming(s, item) == {}
    ensures forall t | t in s.workers :: item !in Target(s.workers[t])
  {
    forall t | t in s.workers
      ensures item !in Target(s.workers[t])
    {
      assert t !in Aiming(s, item);
    }
  }

  lemma ReclaimsAreJournaled(s: State)
    requires FilesOk(s)
    ensures s.reclaiming <= s.journal
  {
  }

  /** The lease runs out and the sweep takes the job. */
  lemma ExpiryCanLeak(s: State, item: Item)
    requires Inv(s) && Loose(s, item) && s.status == Running && s.token.Some? && Aiming(s, item) == {}
    ensures CanLeak(s, item)
  {
    hide Base, FilesOk, CanLeak, Over, Drop, FilesOf, Rest, MayPurge, Retries, Clears, Target;
    var s1 := Next(s, Expire);
    NextInv(s, Expire);
    var s2 := Next(s1, Sweep);
    NextInv(s1, Sweep);
    assert s2.workers == s.workers;
    assert Aiming(s2, item) == Aiming(s, item);
    SweepCanLeak(s2, item);
    LeakAfter(s1, Sweep, item);
    LeakAfter(s, Expire, item);
  }

  lemma FreshToken(workers: set<Token>) returns (t: Token)
    ensures t !in workers && forall u | u in workers :: u < t
    decreases |workers|
  {
    t := 0;
    if workers != {} {
      var u :| u in workers;
      var v := FreshToken(workers - {u});
      t := if u < v then v else u + 1;
      assert forall x | x in workers :: x == u || x in workers - {u};
    }
  }

  /** A released job is claimed once more, the worker crashes, and the sweep takes it. */
  lemma RetryCanLeak(s: State, item: Item)
    requires Inv(s) && Loose(s, item) && s.status == Running && s.token == None && Aiming(s, item) == {}
    ensures CanLeak(s, item)
  {
    hide FilesOk, CanLeak, RowsNamed, OwnerOk, Apart, Untouched, WorkerOk, Over, Drop, FilesOf, Rest, MayPurge, Retries, Clears;
    var t := FreshToken(s.workers.Keys);
    var s1 := Next(s, Claim(t));
    NextInv(s, Claim(t));
    assert Aiming(s1, item) - {t} == Aiming(s, item);
    CrashShape(s1, t, item);
    var s2 := Next(s1, Crash(t));
    ExpiryCanLeak(s2, item);
    LeakAfter(s1, Crash(t), item);
    LeakAfter(s, Claim(t), item);
  }

  lemma {:induction false} LooseCanLeak(s: State, item: Item)
    requires Inv(s) && Loose(s, item)
    ensures CanLeak(s, item)
    decreases |Aiming(s, item)|
  {
    hide Inv, FilesOk, CanLeak, Aiming, Loose, Next, Enabled;
    if Aiming(s, item) != {} {
      var t :| t in Aiming(s, item);
      AimerIsKnown(s, t, item);
      CrashShape(s, t, item);
      CrashEnabled(s, t);
      LooseCanLeak(Next(s, Crash(t)), item);
      LeakAfter(s, Crash(t), item);
    } else if s.status == Failed {
      SweepCanLeak(s, item);
    } else if s.status == Completed {
      CompletedCanLeak(s, item);
    } else if s.token.Some? {
      ExpiryCanLeak(s, item);
    } else {
      RetryCanLeak(s, item);
    }
  }

  lemma AimerIsKnown(s: State, t: Token, item: Item)
    requires t in Aiming(s, item)
    ensures t in s.workers
  {
  }

  lemma CrashEnabled(s: State, t: Token)
    requires t in s.workers
    ensures Enabled(s, Crash(t))
  {
  }

  lemma CompletedCanLeak(s: State, item: Item)
    requires Inv(s) && Loose(s, item) && s.status == Completed && Aiming(s, item) == {}
    ensures CanLeak(s, item)
  {
    hide CanLeak, RowsNamed, OwnerOk, Apart, Untouched, WorkerOk, Target;
    NobodyAims(s, item);
    LeakNow(s, item);
  }

  /** After an unsafe put some run abandons the object, whatever the job's references say. */
  lemma UnsafePutCanLeak(s: State, t: Token, reply: Reply)
    requires Inv(s) && Enabled(s, Put(t, reply)) && reply != Refused && !PutSafe(s, t)
    ensures CanLeak(Next(s, Put(t, reply)), s.workers[t].phase.item)
  {
    hide Base, CanLeak, Next;
    var item, e := s.workers[t].phase.item, Next(s, Put(t, reply));
    NextInv(s, Put(t, reply));
    PutShape(s, t, reply);
    UsedGrows(s, t, reply);
    if item in e.journal {
      JournalEntryEnds(e, item);
      LooseCanLeak(Next(e, ReclaimEnd(item, true)), item);
      LeakAfter(e, ReclaimEnd(item, true), item);
    } else {
      LooseCanLeak(e, item);
    }
  }

  lemma UsedGrows(s: State, t: Token, reply: Reply)
    requires Enabled(s, Put(t, reply))
    ensures Next(s, Put(t, reply)).used == s.used
  {
    hide Drop, Rest, MayPurge, FilesOf, Over, Retries;
  }

  lemma JournalEntryEnds(s: State, item: Item)
    requires Inv(s) && item in s.live && item in s.used && item.Object? && item !in s.files && item in s.reclaiming
    ensures Enabled(s, ReclaimEnd(item, true)) && Inv(Next(s, ReclaimEnd(item, true))) && Loose(Next(s, ReclaimEnd(item, true)), item)
  {
    hide Base, FilesOk, Drop, Rest, MayPurge, FilesOf, Over, Retries;
    NextInv(s, ReclaimEnd(item, true));
  }

  // ---------------------------------------------------------------- which puts are harmless

  /** No two workers have created the same thing. */
  predicate OwnWork(s: State) {
    forall t, u | t in s.workers && u in s.workers && t != u :: s.workers[t].created !! s.workers[u].created
  }

  lemma OwnWorkStep(s: State, a: Action)
    requires Inv(s) && OwnWork(s) && Enabled(s, a)
    ensures OwnWork(Next(s, a))
  {
    hide Base, FilesOk, OwnWork, Next, Enabled;
    if Mover(a).Some? {
      OwnWorkMoves(s, a, Mover(a).value);
    } else {
      OwnWorkAround(s, a);
    }
  }

  lemma MoveCreated(s: State, a: Action, t: Token)
    requires Enabled(s, a) && Mover(a) == Some(t)
    ensures var e := Next(s, a);
            t in s.workers && t in e.workers && e.workers == s.workers[t := e.workers[t]] && e.workers[t].created <= s.workers[t].created + Made(s, a)
  {
    hide Over, Retries, Clears, Drop, FilesOf, Rest, MayPurge;
    if Purges(a) {
      DropFrame(s, a.item);
    }
  }

  lemma OwnWorkMoves(s: State, a: Action, t: Token)
    requires Inv(s) && OwnWork(s) && Enabled(s, a) && Mover(a) == Some(t)
    ensures OwnWork(Next(s, a))
  {
    hide FilesOk, Next, Enabled, RowsNamed, OwnerOk, Apart, Untouched, Target;
    MoveCreated(s, a, t);
    MadeIsNew(s, a);
  }

  lemma MadeIsNew(s: State, a: Action)
    requires Inv(s)
    ensures forall u | u in s.workers :: s.workers[u].created !! Made(s, a)
  {
    hide FilesOk, RowsNamed, OwnerOk, Apart, Untouched, Target;
  }

  lemma OwnWorkAround(s: State, a: Action)
    requires Inv(s) && OwnWork(s) && Enabled(s, a) && Mover(a) == None
    ensures OwnWork(Next(s, a))
  {
    hide Base, FilesOk, Over, Retries, Clears, Drop, FilesOf, Rest, MayPurge;
    if Purges(a) {
      DropFrame(s, a.item);
    }
  }

  lemma {:induction false} RunOwnWork(s: State, actions: seq<Action>, end: State)
    requires Inv(s) && OwnWork(s) && Run(s, actions, end)
    ensures Inv(end) && OwnWork(end)
    decreases |actions|
  {
    hide Inv, OwnWork, Next, Enabled;
    if actions != [] {
      NextInv(s, actions[0]);
      OwnWorkStep(s, actions[0]);
      RunOwnWork(Next(s, actions[0]), actions[1..], end);
    }
  }

  /** The object is held whenever it is there, and no put of it is under way. */
  predicate Kept(s: State, item: Item) {
    && item.Object? && item in s.used && (item in s.live ==> Held(s, item))
    && forall t | t in s.workers :: s.workers[t].phase != Putting(item)
  }

  lemma KeptStep(s: State, a: Action, item: Item)
    requires Inv(s) && Enabled(s, a) && Kept(s, item)
    ensures Kept(Next(s, a), item)
  {
    hide Base, FilesOk, Kept, Next, Enabled;
    if Purges(a) {
      KeptByPurge(s, a, item);
    } else if Mover(a).Some? {
      KeptByWorker(s, a, Mover(a).value, item);
    } else {
      KeptAround(s, a, item);
    }
  }

  lemma DropKeeps(s: State, x: Item, item: Item)
    requires FilesOk(s) && (item in s.live ==> Held(s, item))
    ensures var e := Drop(s, x); item in e.live ==> Held(e, item)
  {
  }

  lemma KeptByPurge(s: State, a: Action, item: Item)
    requires Inv(s) && Enabled(s, a) && Kept(s, item) && Purges(a)
    ensures Kept(Next(s, a), item)
  {
    hide Base, FilesOk, Drop, Rest, MayPurge, FilesOf, Over, Retries;
    DropKeeps(s, a.item, item);
    DropFrame(s, a.item);
  }

  lemma KeptByWorker(s: State, a: Action, t: Token, item: Item)
    requires Inv(s) && Enabled(s, a) && Kept(s, item) && !Purges(a) && Mover(a) == Some(t)
    ensures Kept(Next(s, a), item)
  {
    hide Base, FilesOk, Next, Enabled, Made;
    MoveFrame(s, a, t);
    KnownFile(s, item);
    MovePhase(s, a, t, item);
  }

  lemma MovePhase(s: State, a: Action, t: Token, item: Item)
    requires Enabled(s, a) && Mover(a) == Some(t) && !Purges(a) && item in s.used && item.Object? && s.workers[t].phase != Putting(item)
    ensures t in Next(s, a).workers && Next(s, a).workers[t].phase != Putting(item)
    ensures item in Next(s, a).live ==> item in s.live
  {
    hide Over, Retries, Clears, Drop, FilesOf, Rest, MayPurge;
  }

  lemma KeptAround(s: State, a: Action, item: Item)
    requires Inv(s) && Enabled(s, a) && Kept(s, item) && !Purges(a) && Mover(a) == None
    ensures Kept(Next(s, a), item)
  {
    hide Base, Over, Retries, Clears, Drop, FilesOf, Rest, MayPurge;
  }

  lemma {:induction false} KeptForGood(s: State, actions: seq<Action>, end: State, item: Item)
    requires Inv(s) && Kept(s, item) && Run(s, actions, end)
    ensures item in end.live ==> Held(end, item)
    decreases |actions|
  {
    hide Inv, Next, Enabled;
    if actions != [] {
      NextInv(s, actions[0]);
      KeptStep(s, actions[0], item);
      KeptForGood(Next(s, actions[0]), actions[1..], end, item);
    }
  }

  lemma SafePutIsKept(s: State, t: Token, reply: Reply)
    requires Inv(s) && OwnWork(s) && Enabled(s, Put(t, reply)) && reply != Refused && PutSafe(s, t)
    ensures Kept(Next(s, Put(t, reply)), s.workers[t].phase.item)
  {
    hide FilesOk, RowsNamed, OwnerOk, Apart, Untouched, Target, Over, Retries, Clears, Drop, FilesOf, Rest, MayPurge;
    var item, e := s.workers[t].phase.item, Next(s, Put(t, reply));
    PutItem(s, t);
    forall u | u in e.workers
      ensures e.workers[u].phase != Putting(item)
    {
      if u != t {
        assert s.workers[t].created !! s.workers[u].created;
        if s.workers[u].phase.Putting? {
          PutItem(s, u);
        }
      }
    }
  }

  /** A put is harmless, in that no run whatever abandons its object, exactly when an attachment row or an untouched journal entry holds the object. */
  lemma PutIsExact(s: State, t: Token, reply: Reply)
    requires Inv(s) && OwnWork(s) && Enabled(s, Put(t, reply)) && reply != Refused
    ensures CanLeak(Next(s, Put(t, reply)), s.workers[t].phase.item) <==> !PutSafe(s, t)
  {
    hide Inv, OwnWork, Next, Abandoned, Kept, PutSafe;
    var item, e := s.workers[t].phase.item, Next(s, Put(t, reply));
    if PutSafe(s, t) {
      NextInv(s, Put(t, reply));
      SafePutIsKept(s, t, reply);
      forall actions, end | Run(e, actions, end)
        ensures !Abandoned(end, item)
      {
        KeptForGood(e, actions, end, item);
        HeldIsNotAbandoned(end, item);
      }
    } else {
      UnsafePutCanLeak(s, t, reply);
    }
  }

  lemma HeldIsNotAbandoned(s: State, item: Item)
    requires item in s.live ==> Held(s, item)
    ensures !Abandoned(s, item)
  {
    hide Target;
  }

  /** The same for every put of every run of the protocol. */
  lemma {:induction false} EveryPutIsExact(actions: seq<Action>, s: State, t: Token, reply: Reply)
    requires Run(Initial, actions, s) && Enabled(s, Put(t, reply)) && reply != Refused
    ensures CanLeak(Next(s, Put(t, reply)), s.workers[t].phase.item) <==> !PutSafe(s, t)
  {
    hide Run, Next, CanLeak, PutSafe;
    InitialInv();
    assert OwnWork(Initial);
    RunOwnWork(Initial, actions, s);
    PutIsExact(s, t, reply);
  }

  // ---------------------------------------------------------------- runs that lose an object

  const Page := Document(5)
  const Leaked := Object(7)

  const Reserved := Worker(1, {}, {Page, Leaked}, Putting(Leaked))

  /** The first worker has made a document, reserved a key for it and is about to put; its lease ran out. */
  const Expired := State(Running, Some(1), false, 1, {Page, Leaked}, {Page}, map[Leaked := Page], {}, {}, {Page, Leaked}, map[1 := Reserved], {}, 0)

  lemma ReachExpired()
    ensures Run(Initial, [Claim(1), Create(1, Page, Ack), Reserve(1, Leaked, Page, Ack), Expire], Expired)
  {
    var s1 := Next(Initial, Claim(1));
    var s2 := Next(s1, Create(1, Page, Ack));
    assert s2.workers[1].created == {Page} && s2.refs == {Page} && s2.live == {Page} && s2.used == {Page};
    var s3 := Next(s2, Reserve(1, Leaked, Page, Ack));
    assert {Page} + {Leaked} == {Page, Leaked};
    assert s3.workers[1] == Reserved;
    assert s3.workers == map[1 := Reserved];
    assert s3.files == Expired.files && s3.refs == Expired.refs && s3.used == Expired.used;
    assert Next(s3, Expire) == Expired;
    hide Next, Enabled;
    Prepend(s3, Expire, [], Expired);
    Prepend(s2, Reserve(1, Leaked, Page, Ack), [Expire], Expired);
    Prepend(s1, Create(1, Page, Ack), [Reserve(1, Leaked, Page, Ack), Expire], Expired);
    Prepend(Initial, Claim(1), [Create(1, Page, Ack), Reserve(1, Leaked, Page, Ack), Expire], Expired);
  }

  /** A second worker has claimed the job and purged the document, whose key is journaled. */
  const HalfUndone := State(Running, Some(2), true, 2, {Page, Leaked}, {}, map[], {Leaked}, {}, {Page, Leaked},
                            map[1 := Reserved, 2 := Worker(2, {Page, Leaked}, {}, Cleaning({Leaked}, 0))], {}, 0)

  /** It has purged the key too; the references and the journal still name it. */
  const Undone := HalfUndone.(workers := map[1 := Reserved, 2 := Worker(2, {Page, Leaked}, {}, Cleaning({}, 0))])

  lemma ReachHalfUndone()
    ensures Run(Expired, [Claim(2), CleanItem(2, Page, true)], HalfUndone)
  {
    var s1 := Next(Expired, Claim(2));
    var s2 := Next(s1, CleanItem(2, Page, true));
    assert FilesOf(s1, Page) == {Leaked};
    assert s2.workers[2].phase.todo == {Leaked} && s2.files == map[] && s2.live == {} && s2.journal == {Leaked};
    assert s2.workers == HalfUndone.workers;
    assert s2 == HalfUndone;
    hide Next, Enabled;
    Prepend(s1, CleanItem(2, Page, true), [], HalfUndone);
    Prepend(Expired, Claim(2), [CleanItem(2, Page, true)], HalfUndone);
  }

  lemma ReachUndone()
    ensures Run(HalfUndone, [CleanItem(2, Leaked, true)], Undone)
  {
    var s1 := Next(HalfUndone, CleanItem(2, Leaked, true));
    assert s1.workers[2].phase.todo == {} && s1.live == {};
    assert s1.workers == Undone.workers;
    assert s1 == Undone;
    hide Next, Enabled;
    Prepend(HalfUndone, CleanItem(2, Leaked, true), [], Undone);
  }

  /** The references have been cleared and the reclaim has dropped the journal entry before the first worker's put. */
  const Reclaimed := State(Running, Some(2), true, 2, {}, {}, map[], {}, {}, {Page, Leaked},
                           map[1 := Reserved, 2 := Worker(2, {Page, Leaked}, {}, Working)], {}, 0)

  lemma ReachReclaimed()
    ensures Run(Undone, [Reset(2, Ack), ReclaimStart(Leaked), ReclaimEnd(Leaked, true)], Reclaimed)
  {
    var s1 := Next(Undone, Reset(2, Ack));
    var s2 := Next(s1, ReclaimStart(Leaked));
    var s3 := Next(s2, ReclaimEnd(Leaked, true));
    assert s3.live == {} && s3.journal == {} && s3.reclaiming == {} && s3.workers == Reclaimed.workers;
    assert s3 == Reclaimed;
    hide Next, Enabled;
    Prepend(s2, ReclaimEnd(Leaked, true), [], Reclaimed);
    Prepend(s1, ReclaimStart(Leaked), [ReclaimEnd(Leaked, true)], Reclaimed);
    Prepend(Undone, Reset(2, Ack), [ReclaimStart(Leaked), ReclaimEnd(Leaked, true)], Reclaimed);
  }

  const Lost := State(Completed, None, false, 2, {}, {Leaked}, map[], {}, {}, {Page, Leaked},
                      map[1 := Worker(1, {}, {Page, Leaked}, Ended), 2 := Worker(2, {Page, Leaked}, {}, Ended)], {}, 0)

  lemma ReachLost()
    ensures Run(Reclaimed, [Put(1, Ack), Mark(1, Ack), Complete(2, Ack)], Lost)
  {
    var s1 := Next(Reclaimed, Put(1, Ack));
    var s2 := Next(s1, Mark(1, Ack));
    var s3 := Next(s2, Complete(2, Ack));
    assert s3.workers == Lost.workers && s3.live == {Leaked};
    assert s3 == Lost;
    hide Next, Enabled;
    Prepend(s2, Complete(2, Ack), [], Lost);
    Prepend(s1, Mark(1, Ack), [Complete(2, Ack)], Lost);
    Prepend(Reclaimed, Put(1, Ack), [Mark(1, Ack), Complete(2, Ack)], Lost);
  }

  /** A run that loses an object for good: the superseded worker's put lands after its successor's clean-up and after the reclaim. */
  lemma {:induction false} StalePutLeaks()
    ensures Run(Initial, [Claim(1), Create(1, Page, Ack), Reserve(1, Leaked, Page, Ack), Expire], Expired)
    ensures Run(Expired, [Claim(2), CleanItem(2, Page, true)], HalfUndone) && Run(HalfUndone, [CleanItem(2, Leaked, true)], Undone)
    ensures Run(Undone, [Reset(2, Ack), ReclaimStart(Leaked), ReclaimEnd(Leaked, true)], Reclaimed)
    ensures Run(Reclaimed, [Put(1, Ack), Mark(1, Ack), Complete(2, Ack)], Lost)
    ensures Lost.status == Completed && Abandoned(Lost, Leaked)
  {
    hide Next, Enabled;
    ReachExpired();
    ReachHalfUndone();
    ReachUndone();
    ReachReclaimed();
    ReachLost();
  }

  /** The sweep has failed the job and purged the document and the key; its references stay, and nobody reads them again. */
  const Swept := State(Failed, None, false, 1, {Page, Leaked}, {}, map[], {}, {}, {Page, Leaked}, map[1 := Reserved], {}, 0)

  lemma ReachSwept()
    ensures Run(Expired, [Sweep, SweepItem(Page, true), SweepItem(Leaked, true)], Swept.(journal := {Leaked}))
  {
    var end := Swept.(journal := {Leaked});
    var s1 := Next(Expired, Sweep);
    var s2 := Next(s1, SweepItem(Page, true));
    assert FilesOf(s1, Page) == {Leaked};
    assert s2.sweep == {Leaked} && s2.files == map[] && s2.live == {} && s2.journal == {Leaked};
    var s3 := Next(s2, SweepItem(Leaked, true));
    assert s3.sweep == {} && s3.live == {};
    assert s3 == end;
    hide Next, Enabled;
    Prepend(s2, SweepItem(Leaked, true), [], end);
    Prepend(s1, SweepItem(Page, true), [SweepItem(Leaked, true)], end);
    Prepend(Expired, Sweep, [SweepItem(Page, true), SweepItem(Leaked, true)], end);
  }

  lemma ReclaimSwept()
    ensures Run(Swept.(journal := {Leaked}), [ReclaimStart(Leaked), ReclaimEnd(Leaked, true)], Swept)
  {
    var start := Swept.(journal := {Leaked});
    var s1 := Next(start, ReclaimStart(Leaked));
    var s2 := Next(s1, ReclaimEnd(Leaked, true));
    assert s2.live == {} && s2.journal == {} && s2.reclaiming == {};
    assert s2 == Swept;
    hide Next, Enabled;
    Prepend(s1, ReclaimEnd(Leaked, true), [], Swept);
    Prepend(start, ReclaimStart(Leaked), [ReclaimEnd(Leaked, true)], Swept);
  }

  const SweptAndLost := Swept.(live := {Leaked}, workers := map[1 := Worker(1, {}, {Page, Leaked}, Ended)])

  lemma ReachSweptAndLost()
    ensures Run(Swept, [Put(1, Ack), Mark(1, Ack)], SweptAndLost)
  {
    var s1 := Next(Swept, Put(1, Ack));
    var s2 := Next(s1, Mark(1, Ack));
    assert s2.workers == SweptAndLost.workers && s2.live == {Leaked};
    assert s2 == SweptAndLost;
    hide Next, Enabled;
    Prepend(s1, Mark(1, Ack), [], SweptAndLost);
    Prepend(Swept, Put(1, Ack), [Mark(1, Ack)], SweptAndLost);
  }

  /** No successor is needed: after the sweep and the reclaim the put is lost although the failed job's references still list its key. */
  lemma {:induction false} SweptPutLeaks()
    ensures Run(Initial, [Claim(1), Create(1, Page, Ack), Reserve(1, Leaked, Page, Ack), Expire], Expired)
    ensures Run(Expired, [Sweep, SweepItem(Page, true), SweepItem(Leaked, true)], Swept.(journal := {Leaked}))
    ensures Run(Swept.(journal := {Leaked}), [ReclaimStart(Leaked), ReclaimEnd(Leaked, true)], Swept)
    ensures Run(Swept, [Put(1, Ack), Mark(1, Ack)], SweptAndLost)
    ensures Leaked in SweptAndLost.refs && Abandoned(SweptAndLost, Leaked)
  {
    hide Next, Enabled;
    ReachExpired();
    ReachSwept();
    ReclaimSwept();
    ReachSweptAndLost();
  }

  /** A put between the purge of the key and the clearing: the references go while the object they name is live, and the journal has it. */
  lemma {:induction false} ClearedWithLiveObject()
    ensures Run(Initial, [Claim(1), Create(1, Page, Ack), Reserve(1, Leaked, Page, Ack), Expire], Expired)
    ensures Run(Expired, [Claim(2), CleanItem(2, Page, true)], HalfUndone) && Run(HalfUndone, [CleanItem(2, Leaked, true)], Undone)
    ensures Enabled(Undone, Put(1, Ack)) && PutSafe(Undone, 1)
    ensures var s := Next(Undone, Put(1, Ack));
            && Enabled(s, Reset(2, Ack)) && Leaked in s.refs && Leaked in s.live
            && var e := Next(s, Reset(2, Ack)); e.refs == {} && Leaked in e.live && Held(e, Leaked)
  {
    ReachExpired();
    ReachHalfUndone();
    ReachUndone();
    hide Run;
  }
}
