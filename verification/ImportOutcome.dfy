/**
  * How an import ends: what a compensation, a give-up, a completion and a sweep leave behind, over
  * every run of the protocol.
  */
module ImportOutcome {
  import opened Options
  import opened ImportProtocol

  // ---------------------------------------------------------------- what comes to life

  /** The item an action may bring to life: a new identity, or the object of a put. */
  ghost predicate Born(s: State, a: Action, i: Item) {
    i !in s.used || (a.Put? && a.t in s.workers && s.workers[a.t].phase.Putting? && i == s.workers[a.t].phase.item)
  }

  lemma LiveGrows(s: State, a: Action, i: Item)
    requires Enabled(s, a) && i in Next(s, a).live
    ensures i in s.live || Born(s, a, i)
  {
    hide Drop, Rest, MayPurge, FilesOf, Over, Retries, Clears;
    if Purges(a) {
      DropFrame(s, a.item);
    }
  }

  // ---------------------------------------------------------------- a complete compensation

  /** What a worker created and finds still there is left to purge, as long as no purge has failed. */
  ghost predicate Compensates(s: State, w: Worker) {
    w.phase.Undoing? && w.phase.failed == 0 ==> forall i | i in w.created && i in s.live :: i in w.phase.todo
  }

  ghost predicate Compensating(s: State) {
    forall t | t in s.workers :: Compensates(s, s.workers[t])
  }

  lemma CompensatingStep(s: State, a: Action)
    requires Inv(s) && OwnWork(s) && Compensating(s) && Enabled(s, a)
    ensures Compensating(Next(s, a))
  {
    hide Base, FilesOk, OwnWork, Next, Enabled, Compensates;
    var e := Next(s, a);
    forall u | u in e.workers
      ensures Compensates(e, e.workers[u])
    {
      if Mover(a) == Some(u) {
        MoverCompensates(s, a, u);
      } else {
        OtherCompensates(s, a, u);
      }
    }
  }

  /** The mover starts with everything it created, or has passed one more item. */
  lemma MoverCompensates(s: State, a: Action, t: Token)
    requires Enabled(s, a) && Mover(a) == Some(t) && Compensating(s)
    ensures t in Next(s, a).workers && Compensates(Next(s, a), Next(s, a).workers[t])
  {
    hide Drop, Rest, MayPurge, FilesOf, Over, Retries, Clears;
    assert Compensates(s, s.workers[t]);
    if a.CleanItem? || a.UndoItem? {
      DropFrame(s, a.item);
      RestKeeps(s, s.workers[t].phase.todo, a.item, a.purged);
    }
  }

  lemma RestKeeps(s: State, todo: set<Item>, item: Item, purged: bool)
    ensures todo - {item} <= Rest(s, todo, item, purged)
  {
  }

  lemma OtherCompensates(s: State, a: Action, u: Token)
    requires Inv(s) && OwnWork(s) && Compensating(s) && Enabled(s, a) && Mover(a) != Some(u) && u in Next(s, a).workers
    ensures Compensates(Next(s, a), Next(s, a).workers[u])
  {
    hide FilesOk, Next, RowsNamed, OwnerOk, Apart, Untouched, Target, Enabled;
    var e := Next(s, a);
    OthersStay(s, a, u);
    if u in s.workers {
      assert Compensates(s, s.workers[u]);
      forall i | i in s.workers[u].created && i in e.live
        ensures i in s.live
      {
        LiveGrows(s, a, i);
        if a.Put? && i !in s.live {
          PutEnabled(s, a.t, a.reply);
          PutItem(s, a.t);
        }
      }
    }
  }

  lemma PutEnabled(s: State, t: Token, reply: Reply)
    requires Enabled(s, Put(t, reply))
    ensures t in s.workers && s.workers[t].phase.Putting?
  {
  }

  lemma OthersStay(s: State, a: Action, u: Token)
    requires Enabled(s, a) && Mover(a) != Some(u) && u in Next(s, a).workers
    ensures if u in s.workers then Next(s, a).workers[u] == s.workers[u] else !Next(s, a).workers[u].phase.Undoing?
  {
    hide Drop, Rest, MayPurge, FilesOf, Over, Retries, Clears;
    if Purges(a) {
      DropFrame(s, a.item);
    }
  }

  lemma {:induction false} RunCompensates(s: State, actions: seq<Action>, end: State)
    requires Inv(s) && OwnWork(s) && Compensating(s) && Run(s, actions, end)
    ensures Inv(end) && OwnWork(end) && Compensating(end)
    decreases |actions|
  {
    hide Inv, OwnWork, Compensating, Next, Enabled;
    if actions != [] {
      NextInv(s, actions[0]);
      OwnWorkStep(s, actions[0]);
      CompensatingStep(s, actions[0]);
      RunCompensates(Next(s, actions[0]), actions[1..], end);
    }
  }

  lemma {:induction false} ReachableIsSound(actions: seq<Action>, s: State)
    requires Run(Initial, actions, s)
    ensures Inv(s) && OwnWork(s) && Compensating(s)
  {
    hide Inv, Run;
    InitialInv();
    RunCompensates(Initial, actions, s);
  }

  /** Whatever the failure: when a worker ends after a compensation without a failed purge, nothing it created is there any more. */
  lemma {:induction false} CompensatedIsGone(actions: seq<Action>, s: State, t: Token, reply: Reply)
    requires Run(Initial, actions, s) && (Enabled(s, GiveUp(t, reply)) || Enabled(s, Release(t, reply))) && s.workers[t].phase.failed == 0
    ensures s.workers[t].created !! s.live
  {
    hide Run, Inv, OwnWork, Retries;
    ReachableIsSound(actions, s);
    assert Compensates(s, s.workers[t]);
  }

  // ---------------------------------------------------------------- a row whose answer got lost

  /** The worker is at its own work, past any clean-up of an earlier attempt. */
  predicate Settled(w: Worker) {
    w.phase.Working? || w.phase.Putting? || w.phase.Marking? || (w.phase.Undoing? && w.phase.cause != CleanupIncomplete)
  }

  /** The lease holder knows every live row, but for those whose create answer it lost. */
  ghost predicate Accounted(s: State, t: Token, i: Item, lost: bool) {
    s.token == Some(t) && t in s.workers && Settled(s.workers[t]) && !i.Object? && i in s.live && !lost ==> i in s.workers[t].created
  }

  lemma AccountedStep(s: State, a: Action, t: Token, i: Item, lost: bool)
    requires Inv(s) && Enabled(s, a) && Accounted(s, t, i, lost)
    ensures Accounted(Next(s, a), t, i, lost || a == Create(t, i, Lost))
  {
    hide Inv, Next, Enabled, Accounted;
    if a.CleanItem? || a.UndoItem? || a.Gone? || a.SweepItem? {
      AccountedByPurge(s, a, t, i, lost);
    } else if Mover(a) == Some(t) {
      AccountedByHolder(s, a, t, i, lost);
    } else {
      AccountedByOthers(s, a, t, i, lost);
    }
  }

  lemma AccountedByPurge(s: State, a: Action, t: Token, i: Item, lost: bool)
    requires Enabled(s, a) && Accounted(s, t, i, lost) && Purges(a)
    ensures Accounted(Next(s, a), t, i, lost)
  {
    hide Drop, Rest, MayPurge, FilesOf, Over, Retries, Clears;
    DropFrame(s, a.item);
  }

  lemma AccountedByHolder(s: State, a: Action, t: Token, i: Item, lost: bool)
    requires Inv(s) && Enabled(s, a) && Accounted(s, t, i, lost) && Mover(a) == Some(t) && !Purges(a)
    ensures Accounted(Next(s, a), t, i, lost || a == Create(t, i, Lost))
  {
    hide FilesOk, Apart, Untouched, WorkerOk, Target, Drop, Rest, MayPurge, FilesOf, Retries, Clears;
    if a.Reset? && s.token == Some(t) {
      assert Purged(s, s.refs, s.workers[t].phase.todo);
    }
    if a.Put? {
      PutItem(s, t);
    }
  }

  lemma AccountedByOthers(s: State, a: Action, t: Token, i: Item, lost: bool)
    requires Inv(s) && Enabled(s, a) && Accounted(s, t, i, lost) && Mover(a) != Some(t) && !Purges(a)
    ensures Accounted(Next(s, a), t, i, lost)
  {
    hide FilesOk, Apart, Untouched, WorkerOk, Target, Drop, Rest, MayPurge, FilesOf, Retries, Clears, OwnerOk;
    if a.Put? {
      PutItem(s, a.t);
    }
  }

  lemma {:induction false} RunAccounts(s: State, actions: seq<Action>, end: State, t: Token, i: Item, lost: bool)
    requires Inv(s) && Run(s, actions, end) && Accounted(s, t, i, lost)
    ensures Accounted(end, t, i, lost || Create(t, i, Lost) in actions)
    decreases |actions|
  {
    hide Inv, Accounted, Next, Enabled;
    if actions != [] {
      NextInv(s, actions[0]);
      AccountedStep(s, actions[0], t, i, lost);
      RunAccounts(Next(s, actions[0]), actions[1..], end, t, i, lost || actions[0] == Create(t, i, Lost));
      assert actions == [actions[0]] + actions[1..];
    }
  }

  /** A live row that no worker will purge while `t` has the token. */
  ghost predicate OutOfReach(s: State, t: Token, i: Item) {
    t in s.workers && s.token == Some(t) && i in s.live && i in s.used && !i.Object? && forall u | u in s.workers :: i !in Target(s.workers[u])
  }

  lemma OutOfReachStep(s: State, a: Action, t: Token, i: Item)
    requires Inv(s) && Enabled(s, a) && OutOfReach(s, t, i) && a != Gone(i) && Next(s, a).token == Some(t)
    ensures OutOfReach(Next(s, a), t, i)
  {
    hide Inv, Next, Enabled, OutOfReach;
    if a.CleanItem? || a.UndoItem? {
      OutOfReachOfPurge(s, a, a.t, t, i);
    } else if Mover(a).Some? {
      OutOfReachOfMove(s, a, Mover(a).value, t, i);
    } else {
      OutOfReachAround(s, a, t, i);
    }
  }

  lemma OutOfReachOfPurge(s: State, a: Action, u: Token, t: Token, i: Item)
    requires Inv(s) && Enabled(s, a) && OutOfReach(s, t, i) && (a.CleanItem? || a.UndoItem?) && Mover(a) == Some(u)
    ensures OutOfReach(Next(s, a), t, i)
  {
    hide Base, FilesOk, Drop, Rest, FilesOf, Over, Retries, Clears, WorkerOk;
    PurgeWorker(s, a, u);
    DropFrame(s, a.item);
    FilesAreObjects(s, a.item);
    assert i !in Target(s.workers[u]);
  }

  lemma OutOfReachOfMove(s: State, a: Action, u: Token, t: Token, i: Item)
    requires Inv(s) && Enabled(s, a) && OutOfReach(s, t, i) && !Purges(a) && Mover(a) == Some(u) && Next(s, a).token == Some(t)
    ensures OutOfReach(Next(s, a), t, i)
  {
    hide Base, FilesOk, Next, Enabled, Target;
    MoveFrame(s, a, u);
    MoveTarget(s, a, u);
  }

  lemma OutOfReachAround(s: State, a: Action, t: Token, i: Item)
    requires Inv(s) && Enabled(s, a) && OutOfReach(s, t, i) && Mover(a) == None && a != Gone(i) && Next(s, a).token == Some(t)
    ensures OutOfReach(Next(s, a), t, i)
  {
    hide FilesOk, Apart, Untouched, WorkerOk, Rest, FilesOf, Over, Retries, Clears, OwnerOk, RowsNamed, Target, Drop;
    KnownFile(s, i);
    if a.Gone? || a.SweepItem? {
      DropFrame(s, a.item);
    }
  }

  lemma {:induction false} RunLeaves(s: State, actions: seq<Action>, end: State, t: Token, i: Item)
    requires Inv(s) && Run(s, actions, end) && OutOfReach(s, t, i) && end.token == Some(t) && Gone(i) !in actions
    ensures OutOfReach(end, t, i)
    decreases |actions|
  {
    hide Inv, OutOfReach, Next, Enabled;
    if actions != [] {
      assert actions[0] in actions && forall b | b in actions[1..] :: b in actions;
      NextInv(s, actions[0]);
      OutOfReachWorker(s, actions[0], t, i);
      TokenWasHeld(Next(s, actions[0]), actions[1..], end, t);
      OutOfReachStep(s, actions[0], t, i);
      RunLeaves(Next(s, actions[0]), actions[1..], end, t, i);
    }
  }

  lemma OutOfReachWorker(s: State, a: Action, t: Token, i: Item)
    requires OutOfReach(s, t, i) && Enabled(s, a)
    ensures t in Next(s, a).workers
  {
    hide Target;
    WorkersStay(s, a, t);
  }

  lemma WorkersStay(s: State, a: Action, t: Token)
    requires Enabled(s, a) && t in s.workers
    ensures t in Next(s, a).workers
  {
    hide Drop, Rest, MayPurge, FilesOf, Over, Retries, Clears;
    if Purges(a) {
      DropFrame(s, a.item);
    }
  }

  /** A row whose create answer is lost is in nobody's reach. */
  lemma LostIsOutOfReach(s: State, t: Token, i: Item)
    requires Inv(s) && Owned(s, t) && Enabled(s, Create(t, i, Lost))
    ensures OutOfReach(Next(s, Create(t, i, Lost)), t, i)
  {
    hide FilesOk, Apart, Untouched, Rest, FilesOf, Over, Retries, Clears, OwnerOk, RowsNamed, Drop, MayPurge;
    forall u | u in s.workers
      ensures i !in Target(s.workers[u])
    {
      assert WorkerOk(s, s.workers[u]);
    }
  }

  /** A lease is never renewed for the same token once it ran out. */
  lemma OwnedBefore(s: State, a: Action, t: Token)
    requires Enabled(s, a) && t in s.workers && Owned(Next(s, a), t)
    ensures Owned(s, t) && t in Next(s, a).workers
  {
    hide Drop, Rest, MayPurge, FilesOf, Over, Retries, Clears;
    if Purges(a) {
      DropFrame(s, a.item);
    }
  }

  lemma {:induction false} OwnedThroughout(s: State, actions: seq<Action>, end: State, t: Token)
    requires Run(s, actions, end) && t in s.workers && Owned(end, t)
    ensures Owned(s, t)
    decreases |actions|
  {
    hide Next, Enabled, Owned;
    if actions != [] {
      WorkersStay(s, actions[0], t);
      OwnedThroughout(Next(s, actions[0]), actions[1..], end, t);
      OwnedBefore(s, actions[0], t);
    }
  }

  /** The state in the middle of a run. */
  lemma {:induction false} RunSplits(s: State, front: seq<Action>, back: seq<Action>, end: State) returns (mid: State)
    requires Run(s, front + back, end)
    ensures Run(s, front, mid) && Run(mid, back, end)
    decreases |front|
  {
    hide Next, Enabled;
    if front == [] {
      assert front + back == back;
      mid := s;
    } else {
      assert (front + back)[0] == front[0] && (front + back)[1..] == front[1..] + back;
      mid := RunSplits(Next(s, front[0]), front[1..], back, end);
    }
  }

  /**
    * What a failed import leaves: after a compensation without a failed purge, a row stands exactly when
    * the answer to its creation got lost. The worker never learns of it, and the job's row is closed.
    */
  lemma {:induction false} GiveUpIsExact(actions: seq<Action>, s: State, t: Token, reply: Reply, i: Item)
    requires Run(Initial, actions, s) && Owned(s, t) && Enabled(s, GiveUp(t, reply))
    requires s.workers[t].phase.failed == 0 && s.workers[t].phase.cause != CleanupIncomplete && !i.Object? && Gone(i) !in actions
    ensures i in s.live <==> Create(t, i, Lost) in actions
  {
    hide Run, Inv, OwnWork, Compensating, Next, Accounted, Retries, Over, OutOfReach, Owned;
    ReachableIsSound(actions, s);
    if i in s.live {
      InitialInv();
      NothingYet(t, i);
      RunAccounts(Initial, actions, s, t, i, false);
      CompensatedIsGone(actions, s, t, reply);
      AccountedFor(s, t, i, Create(t, i, Lost) in actions);
    }
    if Create(t, i, Lost) in actions {
      var n :| 0 <= n < |actions| && actions[n] == Create(t, i, Lost);
      LostRowStands(actions, s, t, i, n);
    }
  }

  lemma NothingYet(t: Token, i: Item)
    ensures Accounted(Initial, t, i, false)
  {
  }

  lemma AccountedFor(s: State, t: Token, i: Item, lost: bool)
    requires Accounted(s, t, i, lost) && Owned(s, t) && t in s.workers && s.workers[t].phase.Undoing? && s.workers[t].phase.cause != CleanupIncomplete
    requires i in s.live && !i.Object? && s.workers[t].created !! s.live
    ensures lost
  {
  }

  lemma {:induction false} LostRowStands(actions: seq<Action>, s: State, t: Token, i: Item, n: nat)
    requires Run(Initial, actions, s) && Owned(s, t) && n < |actions| && actions[n] == Create(t, i, Lost) && Gone(i) !in actions
    ensures i in s.live
  {
    hide Inv, OwnWork, Compensating, Enabled, Next;
    var rest := actions[n..];
    assert actions[..n] + rest == actions;
    var mid := RunSplits(Initial, actions[..n], rest, s);
    ReachableIsSound(actions[..n], mid);
    assert rest[0] == actions[n] && rest[1..] == actions[n + 1..];
    assert Enabled(mid, Create(t, i, Lost)) && Run(Next(mid, Create(t, i, Lost)), rest[1..], s);
    CreatorIsKnown(mid, t, i);
    OwnedThroughout(mid, rest, s, t);
    NextInv(mid, Create(t, i, Lost));
    LostIsOutOfReach(mid, t, i);
    assert forall b | b in rest[1..] :: b in actions;
    RunLeaves(Next(mid, Create(t, i, Lost)), rest[1..], s, t, i);
  }

  lemma CreatorIsKnown(s: State, t: Token, i: Item)
    requires Enabled(s, Create(t, i, Lost))
    ensures t in s.workers
  {
  }

  /** The create has committed, its answer got lost, and the worker has nothing to undo. */
  const Unanswered := State(Running, Some(1), true, 1, {Page}, {Page}, map[], {}, {}, {Page}, map[1 := Worker(1, {}, {}, Undoing(Other, {}, 0))], {}, 0)

  lemma {:induction false} ReachUnanswered()
    ensures Run(Initial, [Claim(1), Create(1, Page, Lost)], Unanswered)
  {
    var s1 := Next(Initial, Claim(1));
    var s2 := Next(s1, Create(1, Page, Lost));
    assert s2.workers == Unanswered.workers && s2.refs == {Page};
    assert s2 == Unanswered;
    hide Next, Enabled;
    Prepend(s1, Create(1, Page, Lost), [], Unanswered);
    Prepend(Initial, Claim(1), [Create(1, Page, Lost)], Unanswered);
  }

  /** Such a run: the job ends as failed and the document stands. */
  lemma {:induction false} LostAnswerLeavesRow()
    ensures Run(Initial, [Claim(1), Create(1, Page, Lost)], Unanswered) && Enabled(Unanswered, GiveUp(1, Ack))
    ensures var e := Next(Unanswered, GiveUp(1, Ack)); e.status == Failed && Page in e.live && e.sweep == {}
  {
    hide Run;
    ReachUnanswered();
  }

  // ---------------------------------------------------------------- a completed import

  predicate AtWork(w: Worker) {
    w.phase.Working? || w.phase.Putting? || w.phase.Marking?
  }

  /** The lease holder's rows stand while it is at work. */
  ghost predicate Standing(s: State, t: Token, i: Item) {
    s.token == Some(t) && t in s.workers && AtWork(s.workers[t]) && i in s.workers[t].created && !i.Object? ==> i in s.live
  }

  lemma StandingStep(s: State, a: Action, t: Token, i: Item)
    requires Inv(s) && Enabled(s, a) && Standing(s, t, i) && a != Gone(i)
    ensures Standing(Next(s, a), t, i)
  {
    hide Inv, Next, Enabled, Standing;
    if Purges(a) {
      StandingByPurge(s, a, t, i);
    } else if Mover(a) == Some(t) {
      StandingByHolder(s, a, t, i);
    } else {
      StandingByOthers(s, a, t, i);
    }
  }

  lemma StandingByPurge(s: State, a: Action, t: Token, i: Item)
    requires Inv(s) && Enabled(s, a) && Standing(s, t, i) && Purges(a) && a != Gone(i)
    ensures Standing(Next(s, a), t, i)
  {
    hide FilesOk, RowsNamed, OwnerOk, Untouched, WorkerOk, Drop, Rest, FilesOf, Over, Retries, Clears;
    DropFrame(s, a.item);
    if s.token == Some(t) && (a.CleanItem? || a.UndoItem?) && a.t != t {
      assert s.workers[t].created !! Target(s.workers[a.t]);
    }
  }

  lemma StandingByHolder(s: State, a: Action, t: Token, i: Item)
    requires Inv(s) && Enabled(s, a) && Standing(s, t, i) && !Purges(a) && Mover(a) == Some(t)
    ensures Standing(Next(s, a), t, i)
  {
    hide FilesOk, RowsNamed, OwnerOk, Apart, Untouched, Target, Drop, Rest, MayPurge, FilesOf, Over, Retries, Clears;
    assert WorkerOk(s, s.workers[t]);
  }

  lemma StandingByOthers(s: State, a: Action, t: Token, i: Item)
    requires Inv(s) && Enabled(s, a) && Standing(s, t, i) && !Purges(a) && Mover(a) != Some(t)
    ensures Standing(Next(s, a), t, i)
  {
    hide Base, FilesOk, Drop, Rest, MayPurge, FilesOf, Over, Retries, Clears;
    KnownFile(s, i);
  }

  lemma {:induction false} RunStanding(s: State, actions: seq<Action>, end: State, t: Token, i: Item)
    requires Inv(s) && Run(s, actions, end) && Standing(s, t, i) && Gone(i) !in actions
    ensures Standing(end, t, i)
    decreases |actions|
  {
    hide Inv, Standing, Next, Enabled;
    if actions != [] {
      assert actions[0] in actions && forall b | b in actions[1..] :: b in actions;
      NextInv(s, actions[0]);
      StandingStep(s, actions[0], t, i);
      RunStanding(Next(s, actions[0]), actions[1..], end, t, i);
    }
  }

  /**
    * A completed import is whole: the references are what its last worker created, a row of any other
    * attempt is gone, and a row of its own stands unless a user removed it.
    */
  lemma {:induction false} CompletedIsWhole(actions: seq<Action>, s: State, t: Token, reply: Reply, i: Item)
    requires Run(Initial, actions, s) && Owned(s, t) && Enabled(s, Complete(t, reply)) && reply != Refused
    requires !i.Object? && Gone(i) !in actions
    ensures var e := Next(s, Complete(t, reply)); e.status == Completed && e.refs == s.workers[t].created && (i in e.live <==> i in s.workers[t].created)
  {
    hide Run, FilesOk, Drop, Rest, MayPurge, FilesOf, Over, Retries, Clears, Apart, Untouched, WorkerOk, Target;
    InitialInv();
    RunInv(Initial, actions, s);
    RunStanding(Initial, actions, s, t, i);
  }

  // ---------------------------------------------------------------- how a job ends

  /** A job ends once: completed or failed by the worker that holds the lease, or failed by the sweep after the lease ran out. */
  lemma JobEnds(s: State, a: Action)
    requires Inv(s) && Enabled(s, a) && Next(s, a).status != s.status
    ensures s.status == Running && Next(s, a).token == None
    ensures Next(s, a).status == Completed <==> a.Complete?
    ensures a.Complete? || a.GiveUp? ==> Owned(s, a.t)
    ensures !a.Complete? && !a.GiveUp? ==> a.Sweep? && s.token.Some? && !s.lease
  {
    hide FilesOk, Apart, Untouched, WorkerOk, Target, OwnerOk, RowsNamed, Rest, MayPurge, FilesOf, Over, Retries, Clears, Drop;
    if Purges(a) {
      DropFrame(s, a.item);
    }
  }

  /** Once the compensation is over, the lease holder retries exactly after a transient failure or an incomplete clean-up, and only after the first claim. */
  lemma {:induction false} HolderRetries(actions: seq<Action>, s: State, t: Token, reply: Reply)
    requires Run(Initial, actions, s) && s.token == Some(t) && t in s.workers && s.workers[t].phase.Undoing? && Over(s.workers[t].phase.todo, s.workers[t].phase.failed)
    ensures Enabled(s, Release(t, reply)) <==> s.workers[t].phase.cause != Other && Claims(actions) < 2
    ensures Enabled(s, GiveUp(t, reply)) <==> s.workers[t].phase.cause == Other || Claims(actions) == 2
  {
    hide Run, FilesOk, Apart, Untouched, WorkerOk, Target, OwnerOk, RowsNamed, Rest, MayPurge, FilesOf, Over, Clears, Drop;
    InitialInv();
    RunInv(Initial, actions, s);
    AttemptsCountClaims(Initial, actions, s);
  }

  // ---------------------------------------------------------------- the sweep

  /** Every live row is left to the sweep, as long as none of its purges has failed. */
  ghost predicate Sweeping(s: State) {
    s.status == Failed && (s.sweepFailed == 0 ==> forall i | i in s.live && !i.Object? :: i in s.sweep)
  }

  lemma SweepingStep(s: State, a: Action)
    requires Inv(s) && Enabled(s, a) && Sweeping(s)
    ensures Sweeping(Next(s, a))
  {
    hide FilesOk, Apart, Untouched, WorkerOk, Target, OwnerOk, RowsNamed, MayPurge, FilesOf, Over, Retries, Clears, Drop, Rest;
    if Purges(a) {
      DropFrame(s, a.item);
      RestKeeps(s, s.sweep, a.item, if a.Gone? then false else a.purged);
    }
    if a.Put? {
      PutItem(s, a.t);
    }
  }

  lemma {:induction false} RunSweeps(s: State, actions: seq<Action>, end: State)
    requires Inv(s) && Run(s, actions, end) && Sweeping(s)
    ensures Inv(end) && Sweeping(end)
    decreases |actions|
  {
    hide Inv, Sweeping, Next, Enabled;
    if actions != [] {
      NextInv(s, actions[0]);
      SweepingStep(s, actions[0]);
      RunSweeps(Next(s, actions[0]), actions[1..], end);
    }
  }

  /** A sweep without a failed purge leaves no row of the import, whatever its late workers do meanwhile. */
  lemma {:induction false} SweptIsGone(before: seq<Action>, s: State, after: seq<Action>, end: State)
    requires Run(Initial, before, s) && Enabled(s, Sweep) && Run(Next(s, Sweep), after, end)
    requires Over(end.sweep, end.sweepFailed) && end.sweepFailed == 0
    ensures end.status == Failed && forall i | i in end.live :: i.Object?
  {
    hide Run, FilesOk, Apart, Untouched, WorkerOk, Target, OwnerOk, MayPurge, FilesOf, Retries, Clears, Drop, Rest;
    InitialInv();
    RunInv(Initial, before, s);
    NextInv(s, Sweep);
    RunSweeps(Next(s, Sweep), after, end);
  }

  // ---------------------------------------------------------------- objects go last

  /** What a compensating worker was told to undo. */
  function Told(w: Worker): set<Item> {
    if w.phase.Cleaning? then w.prior else w.created
  }

  predicate Compensator(w: Worker) {
    w.phase.Cleaning? || w.phase.Undoing?
  }

  /** Told rows still there are left to purge until a purge fails, and a key left to purge with an attachment row belongs to a told row. */
  ghost predicate Orderly(s: State, w: Worker) {
    Compensator(w) ==>
      && (w.phase.failed == 0 ==> forall i | i in Told(w) && i in s.live && !i.Object? :: i in w.phase.todo)
      && (forall k | k in w.phase.todo && k in s.files :: s.files[k] in Told(w))
  }

  ghost predicate AllOrderly(s: State) {
    forall t | t in s.workers :: Orderly(s, s.workers[t])
  }

  lemma OrderlyStep(s: State, a: Action)
    requires Inv(s) && AllOrderly(s) && Enabled(s, a)
    ensures AllOrderly(Next(s, a))
  {
    hide Base, FilesOk, Next, Enabled, Orderly;
    var e := Next(s, a);
    forall u | u in e.workers
      ensures Orderly(e, e.workers[u])
    {
      if Mover(a) == Some(u) {
        if a.CleanItem? || a.UndoItem? {
          PurgerOrderly(s, a, u);
        } else {
          MoverOrderly(s, a, u);
        }
      } else if u in s.workers {
        OtherOrderly(s, a, u);
      } else {
        OnlyClaimed(s, a, u);
        ClaimOrderly(s, u);
      }
    }
  }

  lemma PurgerOrderly(s: State, a: Action, t: Token)
    requires Inv(s) && AllOrderly(s) && Enabled(s, a) && Mover(a) == Some(t) && (a.CleanItem? || a.UndoItem?)
    ensures t in Next(s, a).workers && Orderly(Next(s, a), Next(s, a).workers[t])
  {
    hide Base, FilesOk, MayPurge, Over, Retries, Clears;
    assert Orderly(s, s.workers[t]);
  }

  /** A worker starts to undo with everything it created. */
  lemma MoverOrderly(s: State, a: Action, t: Token)
    requires Inv(s) && Enabled(s, a) && Mover(a) == Some(t) && !a.CleanItem? && !a.UndoItem?
    ensures t in Next(s, a).workers && Orderly(Next(s, a), Next(s, a).workers[t])
  {
    hide Base, Next, Enabled, Mover;
    NextInv(s, a);
    StartsUndo(s, a, t);
  }

  lemma StartsUndo(s: State, a: Action, t: Token)
    requires Enabled(s, a) && Mover(a) == Some(t) && !a.CleanItem? && !a.UndoItem?
    ensures t in Next(s, a).workers
    ensures var w := Next(s, a).workers[t]; Compensator(w) ==> w.phase.Undoing? && w.phase.todo == w.created && w.phase.failed == 0
  {
    hide Drop, Rest, MayPurge, FilesOf, Over, Retries, Clears;
  }

  /** A worker appears by a claim. */
  lemma OnlyClaimed(s: State, a: Action, t: Token)
    requires Enabled(s, a) && t !in s.workers && t in Next(s, a).workers
    ensures a == Claim(t)
  {
    hide Drop, Rest, MayPurge, FilesOf, Over, Retries, Clears;
    if Purges(a) {
      DropFrame(s, a.item);
    }
  }

  lemma ClaimOrderly(s: State, t: Token)
    requires Inv(s) && Enabled(s, Claim(t))
    ensures Orderly(Next(s, Claim(t)), Next(s, Claim(t)).workers[t])
  {
    hide WorkerOk, OwnerOk, Apart, Untouched, Target, Drop, Rest, MayPurge, FilesOf, Over, Retries, Clears;
  }

  lemma OtherOrderly(s: State, a: Action, u: Token)
    requires Inv(s) && AllOrderly(s) && Enabled(s, a) && Mover(a) != Some(u) && u in s.workers && u in Next(s, a).workers
    ensures Orderly(Next(s, a), Next(s, a).workers[u])
  {
    hide FilesOk, Next, RowsNamed, OwnerOk, Apart, Untouched, Target, Enabled;
    var e, w := Next(s, a), s.workers[u];
    OthersStay(s, a, u);
    assert Orderly(s, w) && WorkerOk(s, w);
    forall i | i in s.used && i in e.live && !i.Object?
      ensures i in s.live
    {
      LiveGrows(s, a, i);
      if a.Put? && i !in s.live {
        PutEnabled(s, a.t, a.reply);
        PutItem(s, a.t);
      }
    }
    forall k | k in s.used && k in e.files
      ensures k in s.files && s.files[k] == e.files[k]
    {
      FilesAreOld(s, a, k);
    }
  }

  /** Only a new key gets an attachment row. */
  lemma FilesAreOld(s: State, a: Action, k: Item)
    requires Enabled(s, a) && k in s.used && k in Next(s, a).files
    ensures k in s.files && s.files[k] == Next(s, a).files[k]
  {
    hide Rest, MayPurge, FilesOf, Over, Retries, Clears;
  }

  /** The sweep knows every live row until one of its purges fails. */
  ghost predicate SweepKnows(s: State) {
    s.sweep != {} ==> Sweeping(s)
  }

  lemma SweepKnowsStep(s: State, a: Action)
    requires Inv(s) && Enabled(s, a) && SweepKnows(s)
    ensures SweepKnows(Next(s, a))
  {
    hide FilesOk, Next, Enabled, Sweeping, WorkerOk, OwnerOk, Apart, Untouched, Target;
    if s.sweep != {} {
      SweepingStep(s, a);
    } else if a.Sweep? {
      SweepStarts(s);
    } else {
      SweepStaysEmpty(s, a);
    }
  }

  lemma SweepStarts(s: State)
    requires Inv(s) && Enabled(s, Sweep)
    ensures Sweeping(Next(s, Sweep))
  {
    hide FilesOk, WorkerOk, OwnerOk, Apart, Untouched, Target;
  }

  lemma SweepStaysEmpty(s: State, a: Action)
    requires Enabled(s, a) && s.sweep == {} && !a.Sweep?
    ensures Next(s, a).sweep == {}
  {
    hide Drop, Rest, FilesOf, Over, Retries, Clears;
    if Purges(a) {
      DropFrame(s, a.item);
    }
  }

  lemma {:induction false} RunOrderly(s: State, actions: seq<Action>, end: State)
    requires Inv(s) && AllOrderly(s) && SweepKnows(s) && Run(s, actions, end)
    ensures Inv(end) && AllOrderly(end) && SweepKnows(end)
    decreases |actions|
  {
    hide Inv, AllOrderly, SweepKnows, Next, Enabled;
    if actions != [] {
      NextInv(s, actions[0]);
      OrderlyStep(s, actions[0]);
      SweepKnowsStep(s, actions[0]);
      RunOrderly(Next(s, actions[0]), actions[1..], end);
    }
  }

  /** No compensation, and no sweep, removes the object of an attachment row that stands: objects go after their rows. */
  lemma {:induction false} ObjectsGoLast(actions: seq<Action>, s: State, a: Action)
    requires Run(Initial, actions, s) && Enabled(s, a) && (a.CleanItem? || a.UndoItem? || a.SweepItem?) && a.item.Object?
    ensures a.item !in s.files
  {
    hide Run, WorkerOk, OwnerOk, Apart, Untouched, Target, RowsNamed, Over, Retries;
    InitialInv();
    RunOrderly(Initial, actions, s);
    if a.CleanItem? || a.UndoItem? {
      assert Orderly(s, s.workers[a.t]);
    }
  }

  // ---------------------------------------------------------------- the next attempt

  /** After a release the next worker starts at once exactly when the released one had undone everything, or there was nothing to undo. */
  lemma {:induction false} RetryStarts(actions: seq<Action>, s: State, t: Token, reply: Reply, next: Token)
    requires Run(Initial, actions, s) && Owned(s, t) && Enabled(s, Release(t, reply)) && reply != Refused && next !in s.workers
    ensures var e := Next(s, Release(t, reply));
            && (e.refs == {} <==> s.refs == {} || (s.workers[t].phase.cause == Transient && s.workers[t].phase.failed == 0))
            && Enabled(e, Claim(next))
            && Next(e, Claim(next)).workers[next].phase == if e.refs == {} then Working else Cleaning(s.refs, 0)
  {
    hide Run, FilesOk, WorkerOk, OwnerOk, Apart, Untouched, Target, RowsNamed, Over, Drop, Rest, MayPurge, FilesOf;
    InitialInv();
    RunInv(Initial, actions, s);
  }

  // ---------------------------------------------------------------- going on after a failed purge

  /** Told rows that are still there although their turn has passed. */
  ghost function Left(s: State, w: Worker): set<Item> {
    if Compensator(w) then set i | i in Told(w) && i in s.live && !i.Object? && i !in w.phase.todo else {}
  }

  ghost predicate Counts(s: State, w: Worker) {
    Compensator(w) ==> |Left(s, w)| <= w.phase.failed
  }

  ghost predicate AllCount(s: State) {
    forall t | t in s.workers :: Counts(s, s.workers[t])
  }

  lemma {:induction false} Fewer(a: set<Item>, b: set<Item>)
    requires a <= b
    ensures |a| <= |b|
    decreases |a|
  {
    if a != {} {
      var x :| x in a;
      Fewer(a - {x}, b - {x});
    }
  }

  lemma CountStep(s: State, a: Action)
    requires Inv(s) && AllCount(s) && Enabled(s, a)
    ensures AllCount(Next(s, a))
  {
    hide Base, FilesOk, Next, Enabled, Counts;
    var e := Next(s, a);
    forall u | u in e.workers
      ensures Counts(e, e.workers[u])
    {
      if Mover(a) == Some(u) {
        if a.CleanItem? || a.UndoItem? {
          PurgerCounts(s, a, u);
        } else {
          MoverCounts(s, a, u);
        }
      } else if u in s.workers {
        OtherCounts(s, a, u);
      } else {
        OnlyClaimed(s, a, u);
        ClaimCounts(s, u);
      }
    }
  }

  lemma PurgerCounts(s: State, a: Action, t: Token)
    requires Inv(s) && AllCount(s) && Enabled(s, a) && Mover(a) == Some(t) && (a.CleanItem? || a.UndoItem?)
    ensures t in Next(s, a).workers && Counts(Next(s, a), Next(s, a).workers[t])
  {
    hide Base, FilesOk, MayPurge, Over, Retries, Clears, Drop, Rest, FilesOf;
    var w, e := s.workers[t], Next(s, a);
    assert Counts(s, w);
    DropFrame(s, a.item);
    RestKeeps(s, w.phase.todo, a.item, a.purged);
    if a.purged {
      Fewer(Left(e, e.workers[t]), Left(s, w));
    } else {
      Fewer(Left(e, e.workers[t]), Left(s, w) + {a.item});
    }
  }

  lemma MoverCounts(s: State, a: Action, t: Token)
    requires Enabled(s, a) && Mover(a) == Some(t) && !a.CleanItem? && !a.UndoItem?
    ensures t in Next(s, a).workers && Counts(Next(s, a), Next(s, a).workers[t])
  {
    hide Next, Enabled, Mover;
    StartsUndo(s, a, t);
    if Compensator(Next(s, a).workers[t]) {
      assert Left(Next(s, a), Next(s, a).workers[t]) == {};
    }
  }

  lemma ClaimCounts(s: State, t: Token)
    requires Enabled(s, Claim(t))
    ensures Counts(Next(s, Claim(t)), Next(s, Claim(t)).workers[t])
  {
    hide Drop, Rest, MayPurge, FilesOf, Over, Retries, Clears;
    assert Left(Next(s, Claim(t)), Next(s, Claim(t)).workers[t]) == {};
  }

  lemma OtherCounts(s: State, a: Action, u: Token)
    requires Inv(s) && AllCount(s) && Enabled(s, a) && Mover(a) != Some(u) && u in s.workers && u in Next(s, a).workers
    ensures Counts(Next(s, a), Next(s, a).workers[u])
  {
    hide FilesOk, Next, RowsNamed, OwnerOk, Apart, Untouched, Target, Enabled;
    var e, w := Next(s, a), s.workers[u];
    OthersStay(s, a, u);
    assert Counts(s, w) && WorkerOk(s, w);
    forall i | i in Left(e, w)
      ensures i in Left(s, w)
    {
      LiveGrows(s, a, i);
      if a.Put? && i !in s.live {
        PutEnabled(s, a.t, a.reply);
        PutItem(s, a.t);
      }
    }
    Fewer(Left(e, w), Left(s, w));
  }

  lemma {:induction false} RunCounts(s: State, actions: seq<Action>, end: State)
    requires Inv(s) && AllCount(s) && Run(s, actions, end)
    ensures Inv(end) && AllCount(end)
    decreases |actions|
  {
    hide Inv, AllCount, Next, Enabled;
    if actions != [] {
      NextInv(s, actions[0]);
      CountStep(s, actions[0]);
      RunCounts(Next(s, actions[0]), actions[1..], end);
    }
  }

  /** A compensation goes on after a failed purge: when it is over, no more rows are left than purges failed. */
  lemma {:induction false} LeftoversAreCounted(actions: seq<Action>, s: State, t: Token)
    requires Run(Initial, actions, s) && t in s.workers && Compensator(s.workers[t]) && Over(s.workers[t].phase.todo, s.workers[t].phase.failed)
    ensures |set i | i in Told(s.workers[t]) && i in s.live && !i.Object?| <= s.workers[t].phase.failed
  {
    hide Run, Base, FilesOk;
    InitialInv();
    RunCounts(Initial, actions, s);
    var w := s.workers[t];
    assert Counts(s, w);
    assert Left(s, w) == set i | i in Told(w) && i in s.live && !i.Object?;
  }

  /** A compensation is over exactly when there is nothing left that it may purge, so it is never stuck. */
  lemma NeverStuck(todo: set<Item>, failed: nat)
    ensures Over(todo, failed) <==> forall item :: !MayPurge(todo, failed, item)
  {
    if forall item :: !MayPurge(todo, failed, item) {
      forall i | i in todo
        ensures i.Object?
      {
        assert !MayPurge(todo, failed, i);
      }
      if failed == 0 && todo != {} {
        var i :| i in todo;
        assert MayPurge(todo, failed, i);
      }
    }
  }

  /** A compensating worker has exactly one way on: one more purge, or the step its phase and its failures call for. */
  lemma OneWayOn(s: State, t: Token, reply: Reply)
    requires t in s.workers && Compensator(s.workers[t])
    ensures var w := s.workers[t];
            var over := forall item :: !MayPurge(w.phase.todo, w.phase.failed, item);
            && (Enabled(s, Reset(t, reply)) <==> over && w.phase.Cleaning? && w.phase.failed == 0)
            && (Enabled(s, CleanFailed(t)) <==> over && w.phase.Cleaning? && w.phase.failed > 0)
            && (Enabled(s, Release(t, reply)) || Enabled(s, GiveUp(t, reply)) <==> over && w.phase.Undoing?)
            && !(Enabled(s, Release(t, reply)) && Enabled(s, GiveUp(t, reply)))
  {
    hide Over, MayPurge;
    NeverStuck(s.workers[t].phase.todo, s.workers[t].phase.failed);
  }

  // ---------------------------------------------------------------- the fence

  /** The job's row stays, nothing new is made, and only an object may come to life. */
  ghost predicate Fenced(s: State, e: State) {
    && e.status == s.status && e.token == s.token && e.lease == s.lease && e.attempts == s.attempts && e.refs == s.refs
    && e.used == s.used && e.files.Keys <= s.files.Keys && forall i | i in e.live && !i.Object? :: i in s.live
  }

  lemma PurgeIsFenced(s: State, a: Action)
    requires Enabled(s, a) && (a.CleanItem? || a.UndoItem?)
    ensures Fenced(s, Next(s, a))
  {
    hide Over, Retries, MayPurge, Rest, Clears;
  }

  lemma MoveIsFenced(s: State, a: Action, t: Token)
    requires Inv(s) && Enabled(s, a) && Mover(a) == Some(t) && !Owned(s, t) && !a.CleanItem? && !a.UndoItem?
    ensures Fenced(s, Next(s, a))
    ensures (a.Reset? || a.Create? || a.Reserve? || a.Mark?) && a.reply == Ack ==> Next(s, a).workers[t].phase.Ended? && Next(s, a).live == s.live
  {
    hide Base, FilesOk, Over, Retries, MayPurge, Rest, Clears, FilesOf, Drop, Owned;
    if a.Put? {
      PutItem(s, t);
    }
  }

  /** Without the lease, be it taken over, run out or given back, a worker changes nothing in the job's row and makes no document or task; told so, it stops and undoes nothing. */
  lemma LeaseFences(s: State, a: Action, t: Token)
    requires Inv(s) && Enabled(s, a) && Mover(a) == Some(t) && (s.status != Running || s.token != Some(t) || !s.lease)
    ensures Fenced(s, Next(s, a))
    ensures (a.Reset? || a.Create? || a.Reserve? || a.Mark?) && a.reply == Ack ==> Next(s, a).workers[t].phase.Ended? && Next(s, a).live == s.live
  {
    hide Inv, Next, Enabled, Fenced;
    if a.CleanItem? || a.UndoItem? {
      PurgeIsFenced(s, a);
    } else {
      MoveIsFenced(s, a, t);
    }
  }

  // ---------------------------------------------------------------- what is retried

  /** The worker undoes for a cause other than `Other` only if that was reported. */
  ghost predicate Reported(s: State, t: Token, transient: bool, incomplete: bool) {
    t in s.workers && s.workers[t].phase.Undoing? ==>
      && (s.workers[t].phase.cause == Transient ==> transient)
      && (s.workers[t].phase.cause == CleanupIncomplete ==> incomplete)
  }

  lemma ReportedStep(s: State, a: Action, t: Token, transient: bool, incomplete: bool)
    requires Enabled(s, a) && Reported(s, t, transient, incomplete)
    ensures Reported(Next(s, a), t, transient || a == Fail(t, Transient), incomplete || a == CleanFailed(t))
  {
    hide Drop, Rest, MayPurge, FilesOf, Over, Retries, Clears;
    if Mover(a) != Some(t) && t in Next(s, a).workers {
      OthersStay(s, a, t);
    }
  }

  lemma {:induction false} RunReports(s: State, actions: seq<Action>, end: State, t: Token, transient: bool, incomplete: bool)
    requires Run(s, actions, end) && Reported(s, t, transient, incomplete)
    ensures Reported(end, t, transient || Fail(t, Transient) in actions, incomplete || CleanFailed(t) in actions)
    decreases |actions|
  {
    hide Reported, Next, Enabled;
    if actions != [] {
      var a := actions[0];
      ReportedStep(s, a, t, transient, incomplete);
      RunReports(Next(s, a), actions[1..], end, t, transient || a == Fail(t, Transient), incomplete || a == CleanFailed(t));
      assert actions == [a] + actions[1..];
    }
  }

  /** A job is released for another attempt only after a failure that said it was transient, or a failed clean-up; a lost answer, a database error or a vanished row never is. */
  lemma {:induction false} OnlyReportedIsRetried(actions: seq<Action>, s: State, t: Token, reply: Reply)
    requires Run(Initial, actions, s) && Enabled(s, Release(t, reply))
    ensures Fail(t, Transient) in actions || CleanFailed(t) in actions
  {
    hide Run, Over;
    RunReports(Initial, actions, s, t, false, false);
  }
}
