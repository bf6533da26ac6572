/**
  * Purged labels and milestones that history or saved views still name: `purged_refs` and the rules
  * that tie the archive's two purged lists to the rest of the graph.
  */
module Purged {
  import opened Options
  import opened Uuids
  import opened Sequences
  import opened Json
  import Activity
  import Views

  const MAX_ENTRIES := 10_000
  /** Graph bytes over the bytes charged per history reference. */
  const MAX_REFERENCES := 16 * 1024 * 1024 / 39

  /** A reference by history or a view filter: to a label or to a milestone. */
  datatype Ref = Ref(isLabel: bool, id: Uuid)

  datatype TaskActivity = TaskActivity(kind: string, changes: Json)

  datatype Error = Limit | Unsupported

  // ---------------------------------------------------------------- what is named

  /** A change of `labelIds` or `milestoneId` with a value on `side`. */
  ghost predicate NamesSide(a: TaskActivity, isLabel: bool, v: Json) {
    exists i, side :: IsSide(a, i, side, isLabel, v)
  }

  ghost predicate IsSide(a: TaskActivity, i: int, side: string, isLabel: bool, v: Json) {
    && a.changes.Arr? && 0 <= i < |a.changes.items| && (side == "from" || side == "to")
    && Get(a.changes.items[i], "field") == Some(Str(if isLabel then "labelIds" else "milestoneId"))
    && Get(a.changes.items[i], side) == Some(v)
  }

  /** `v` holds a well-formed reference to `id`: an item of a label list, or the milestone object itself. */
  ghost predicate Holds(isLabel: bool, v: Json, id: Uuid) {
    if isLabel then v.Arr? && exists k :: 0 <= k < |v.items| && IdOf(v.items[k]) == Some(id) else IdOf(v) == Some(id)
  }

  ghost predicate ActivityNames(activity: seq<TaskActivity>, r: Ref) {
    exists n, v :: 0 <= n < |activity| && NamesSide(activity[n], r.isLabel, v) && Holds(r.isLabel, v, r.id)
  }

  /** A parsed view names the label and the milestone of its filters. */
  ghost predicate ViewNames(views: seq<Option<Views.Query>>, r: Ref) {
    exists n :: 0 <= n < |views| && views[n].Some?
      && (if r.isLabel then views[n].value.labelId else views[n].value.milestone) == Some(r.id)
  }

  ghost predicate Named(activity: seq<TaskActivity>, views: seq<Option<Views.Query>>, r: Ref) {
    ActivityNames(activity, r) || ViewNames(views, r)
  }

  // ---------------------------------------------------------------- collecting

  /** The references of one side, in order. */
  function SideRefs(isLabel: bool, v: Json): seq<Ref> {
    if isLabel then (if v.Arr? then ItemRefs(v.items) else [])
    else match IdOf(v)
         case None => []
         case Some(id) => [Ref(false, id)]
  }

  function ItemRefs(items: seq<Json>): seq<Ref> {
    if items == [] then []
    else (match IdOf(items[0])
          case None => []
          case Some(id) => [Ref(true, id)]) + ItemRefs(items[1..])
  }

  function OptionalSide(isLabel: bool, change: Json, side: string): seq<Ref> {
    match Get(change, side)
    case None => []
    case Some(v) => SideRefs(isLabel, v)
  }

  /** Both sides of a label or milestone change. */
  function ChangeRefs(change: Json): seq<Ref> {
    if Get(change, "field") == Some(Str("labelIds")) then OptionalSide(true, change, "from") + OptionalSide(true, change, "to")
    else if Get(change, "field") == Some(Str("milestoneId")) then OptionalSide(false, change, "from") + OptionalSide(false, change, "to")
    else []
  }

  function ListRefs(changes: seq<Json>): seq<Ref> {
    if changes == [] then [] else ChangeRefs(changes[0]) + ListRefs(changes[1..])
  }

  function HistoryRefs(activity: seq<TaskActivity>): seq<Ref> {
    if activity == [] then []
    else (if activity[0].changes.Arr? then ListRefs(activity[0].changes.items) else []) + HistoryRefs(activity[1..])
  }

  /** `view_filter_refs`: label before milestone, for every view that parses. */
  function ViewRefs(views: seq<Option<Views.Query>>): seq<Ref> {
    if views == [] then []
    else (match views[0]
          case None => []
          case Some(q) =>
            (if q.labelId.Some? then [Ref(true, q.labelId.value)] else []) + (if q.milestone.Some? then [Ref(false, q.milestone.value)] else []))
         + ViewRefs(views[1..])
  }

  lemma {:induction false} ItemRefsAre(items: seq<Json>, r: Ref)
    ensures r in ItemRefs(items) <==> r.isLabel && exists k :: 0 <= k < |items| && IdOf(items[k]) == Some(r.id)
  {
    hide IdOf;
    if items != [] {
      ItemRefsAre(items[1..], r);
      if r.isLabel && exists k :: 0 <= k < |items| && IdOf(items[k]) == Some(r.id) {
        var k :| 0 <= k < |items| && IdOf(items[k]) == Some(r.id);
        if k > 0 {
          assert items[1..][k - 1] == items[k];
        }
      }
      if r.isLabel && exists k :: 0 <= k < |items[1..]| && IdOf(items[1..][k]) == Some(r.id) {
        var k :| 0 <= k < |items[1..]| && IdOf(items[1..][k]) == Some(r.id);
        assert items[k + 1] == items[1..][k];
      }
    }
  }

  lemma SideRefsAre(isLabel: bool, v: Json, r: Ref)
    ensures r in SideRefs(isLabel, v) <==> r.isLabel == isLabel && Holds(isLabel, v, r.id)
  {
    hide IdOf;
    if isLabel && v.Arr? {
      ItemRefsAre(v.items, r);
    }
  }

  /** A change names `r` through one of its two sides. */
  ghost predicate ChangeNames(change: Json, r: Ref) {
    && Get(change, "field") == Some(Str(if r.isLabel then "labelIds" else "milestoneId"))
    && (SideNames(change, "from", r) || SideNames(change, "to", r))
  }

  ghost predicate SideNames(change: Json, side: string, r: Ref) {
    Get(change, side).Some? && Holds(r.isLabel, Get(change, side).value, r.id)
  }

  lemma ChangeRefsAre(change: Json, r: Ref)
    ensures r in ChangeRefs(change) <==> ChangeNames(change, r)
  {
    hide SideRefs, Holds;
    forall side, isLabel
      ensures r in OptionalSide(isLabel, change, side) <==> r.isLabel == isLabel && SideNames(change, side, r)
    {
      if Get(change, side).Some? {
        SideRefsAre(isLabel, Get(change, side).value, r);
      }
    }
  }

  lemma {:induction false} ListRefsAre(changes: seq<Json>, r: Ref)
    ensures r in ListRefs(changes) <==> exists i :: 0 <= i < |changes| && ChangeNames(changes[i], r)
  {
    hide ChangeRefs, ChangeNames;
    if changes != [] {
      ListRefsAre(changes[1..], r);
      ChangeRefsAre(changes[0], r);
      if exists i :: 0 <= i < |changes| && ChangeNames(changes[i], r) {
        var i :| 0 <= i < |changes| && ChangeNames(changes[i], r);
        if i > 0 {
          assert changes[1..][i - 1] == changes[i];
        }
      }
      if exists i :: 0 <= i < |changes[1..]| && ChangeNames(changes[1..][i], r) {
        var i :| 0 <= i < |changes[1..]| && ChangeNames(changes[1..][i], r);
        assert changes[i + 1] == changes[1..][i];
      }
    }
  }

  ghost predicate OneNames(a: TaskActivity, r: Ref) {
    a.changes.Arr? && exists i :: 0 <= i < |a.changes.items| && ChangeNames(a.changes.items[i], r)
  }

  lemma {:induction false} HistoryRefsAre(activity: seq<TaskActivity>, r: Ref)
    ensures r in HistoryRefs(activity) <==> exists n :: 0 <= n < |activity| && OneNames(activity[n], r)
  {
    hide ListRefs, ChangeNames;
    if activity != [] {
      HistoryRefsAre(activity[1..], r);
      if activity[0].changes.Arr? {
        ListRefsAre(activity[0].changes.items, r);
      }
      assert r in (if activity[0].changes.Arr? then ListRefs(activity[0].changes.items) else []) <==> OneNames(activity[0], r);
      if exists n :: 0 <= n < |activity| && OneNames(activity[n], r) {
        var n :| 0 <= n < |activity| && OneNames(activity[n], r);
        if n > 0 {
          assert activity[1..][n - 1] == activity[n];
        }
      }
      if exists n :: 0 <= n < |activity[1..]| && OneNames(activity[1..][n], r) {
        var n :| 0 <= n < |activity[1..]| && OneNames(activity[1..][n], r);
        assert activity[n + 1] == activity[1..][n];
      }
    }
  }

  lemma OneNamesIs(a: TaskActivity, r: Ref)
    ensures OneNames(a, r) <==> exists v :: NamesSide(a, r.isLabel, v) && Holds(r.isLabel, v, r.id)
  {
    hide Holds, Get;
    if OneNames(a, r) {
      var i :| 0 <= i < |a.changes.items| && ChangeNames(a.changes.items[i], r);
      var side := if SideNames(a.changes.items[i], "from", r) then "from" else "to";
      var v := Get(a.changes.items[i], side).value;
      assert IsSide(a, i, side, r.isLabel, v);
    }
    if exists v :: NamesSide(a, r.isLabel, v) && Holds(r.isLabel, v, r.id) {
      var v :| NamesSide(a, r.isLabel, v) && Holds(r.isLabel, v, r.id);
      var i, side :| IsSide(a, i, side, r.isLabel, v);
      assert ChangeNames(a.changes.items[i], r);
    }
  }

  /** The collected history references are exactly the named ones. */
  lemma {:induction false} HistoryRefsNamed(activity: seq<TaskActivity>, r: Ref)
    ensures r in HistoryRefs(activity) <==> ActivityNames(activity, r)
  {
    hide HistoryRefs, OneNames, NamesSide, Holds;
    HistoryRefsAre(activity, r);
    forall n | 0 <= n < |activity|
      ensures OneNames(activity[n], r) <==> exists v :: NamesSide(activity[n], r.isLabel, v) && Holds(r.isLabel, v, r.id)
    {
      OneNamesIs(activity[n], r);
    }
  }

  ghost predicate OneView(q: Option<Views.Query>, r: Ref) {
    q.Some? && (if r.isLabel then q.value.labelId else q.value.milestone) == Some(r.id)
  }

  lemma {:induction false} ViewRefsNamed(views: seq<Option<Views.Query>>, r: Ref)
    ensures r in ViewRefs(views) <==> ViewNames(views, r)
  {
    if views != [] {
      ViewRefsNamed(views[1..], r);
      if ViewNames(views, r) {
        var n :| 0 <= n < |views| && OneView(views[n], r);
        if n > 0 {
          assert views[1..][n - 1] == views[n];
          assert OneView(views[1..][n - 1], r);
        }
      }
      if ViewNames(views[1..], r) {
        var n :| 0 <= n < |views[1..]| && OneView(views[1..][n], r);
        assert views[n + 1] == views[1..][n];
        assert OneView(views[n + 1], r);
      }
      if OneView(views[0], r) {
        assert ViewNames(views, r);
      }
    }
  }

  // ---------------------------------------------------------------- counting

  /** List items and milestone objects of any shape, before anything is collected. */
  function SideCount(isLabel: bool, v: Json): nat {
    if isLabel then (if v.Arr? then |v.items| else 0) else if v.Obj? then 1 else 0
  }

  function OptionalCount(isLabel: bool, change: Json, side: string): nat {
    match Get(change, side)
    case None => 0
    case Some(v) => SideCount(isLabel, v)
  }

  function ChangeCount(change: Json): nat {
    if Get(change, "field") == Some(Str("labelIds")) then OptionalCount(true, change, "from") + OptionalCount(true, change, "to")
    else if Get(change, "field") == Some(Str("milestoneId")) then OptionalCount(false, change, "from") + OptionalCount(false, change, "to")
    else 0
  }

  function ListCount(changes: seq<Json>): nat {
    if changes == [] then 0 else ChangeCount(changes[0]) + ListCount(changes[1..])
  }

  /** `activity_reference_count` without its limit. */
  function HistoryCount(activity: seq<TaskActivity>): nat {
    if activity == [] then 0
    else (if activity[0].changes.Arr? then ListCount(activity[0].changes.items) else 0) + HistoryCount(activity[1..])
  }

  /** A place where history can refer to a label or a milestone: an item of a label list, or a milestone object. */
  datatype Slot = Slot(row: int, change: int, to: bool, item: int)

  ghost predicate InSide(isLabel: bool, v: Json, item: int) {
    if isLabel then v.Arr? && 0 <= item < |v.items| else v.Obj? && item == 0
  }

  ghost function SideName(to: bool): string {
    if to then "to" else "from"
  }

  ghost predicate InChange(change: Json, to: bool, item: int) {
    Get(change, SideName(to)).Some? &&
    ((Get(change, "field") == Some(Str("labelIds")) && InSide(true, Get(change, SideName(to)).value, item))
     || (Get(change, "field") == Some(Str("milestoneId")) && InSide(false, Get(change, SideName(to)).value, item)))
  }

  ghost predicate IsSlot(activity: seq<TaskActivity>, x: Slot) {
    && 0 <= x.row < |activity| && activity[x.row].changes.Arr? && 0 <= x.change < |activity[x.row].changes.items|
    && InChange(activity[x.row].changes.items[x.change], x.to, x.item)
  }

  lemma {:induction false} ItemSlots(row: int, change: int, to: bool, n: nat) returns (s: set<Slot>)
    ensures |s| == n && forall x :: x in s <==> x == Slot(row, change, to, x.item) && 0 <= x.item < n
  {
    s := {};
    if n > 0 {
      var rest := ItemSlots(row, change, to, n - 1);
      s := rest + {Slot(row, change, to, n - 1)};
    }
  }

  lemma SideSlots(row: int, change: int, to: bool, isLabel: bool, v: Json) returns (s: set<Slot>)
    ensures |s| == SideCount(isLabel, v) && forall x :: x in s <==> x == Slot(row, change, to, x.item) && InSide(isLabel, v, x.item)
  {
    s := ItemSlots(row, change, to, SideCount(isLabel, v));
  }

  lemma OptionalSlots(row: int, change: int, to: bool, isLabel: bool, c: Json) returns (s: set<Slot>)
    ensures |s| == OptionalCount(isLabel, c, SideName(to))
    ensures forall x :: x in s <==> x == Slot(row, change, to, x.item) && Get(c, SideName(to)).Some? && InSide(isLabel, Get(c, SideName(to)).value, x.item)
  {
    hide SideCount, InSide, SideName;
    s := {};
    if Get(c, SideName(to)).Some? {
      s := SideSlots(row, change, to, isLabel, Get(c, SideName(to)).value);
    }
  }

  lemma ChangeSlots(row: int, change: int, c: Json) returns (s: set<Slot>)
    ensures |s| == ChangeCount(c) && forall x :: x in s <==> x == Slot(row, change, x.to, x.item) && InChange(c, x.to, x.item)
  {
    hide OptionalCount, InSide;
    s := {};
    var isLabel := Get(c, "field") == Some(Str("labelIds"));
    if isLabel || Get(c, "field") == Some(Str("milestoneId")) {
      var from := OptionalSlots(row, change, false, isLabel, c);
      var to := OptionalSlots(row, change, true, isLabel, c);
      assert from !! to;
      s := from + to;
    }
  }

  /** The slots of a row's changes, the first of them numbered `first`. */
  ghost predicate HasChanges(s: set<Slot>, row: int, first: int, changes: seq<Json>) {
    forall x :: x in s <==> x.row == row && 0 <= x.change - first < |changes| && InChange(changes[x.change - first], x.to, x.item)
  }

  lemma JoinChanges(row: int, first: int, changes: seq<Json>, head: set<Slot>, tail: set<Slot>)
    requires changes != [] && (forall x :: x in head <==> x == Slot(row, first, x.to, x.item) && InChange(changes[0], x.to, x.item))
    requires HasChanges(tail, row, first + 1, changes[1..])
    ensures head !! tail && HasChanges(head + tail, row, first, changes)
  {
    hide InChange;
    assert forall i | 0 < i < |changes| :: changes[1..][i - 1] == changes[i];
  }

  lemma NoChanges(row: int, first: int)
    ensures HasChanges({}, row, first, [])
  {
  }

  lemma {:induction false} ListSlots(row: int, first: int, changes: seq<Json>) returns (s: set<Slot>)
    ensures |s| == ListCount(changes) && HasChanges(s, row, first, changes)
    decreases |changes|
  {
    hide ChangeCount, HasChanges;
    s := {};
    if changes == [] {
      NoChanges(row, first);
    } else {
      var head := ChangeSlots(row, first, changes[0]);
      var tail := ListSlots(row, first + 1, changes[1..]);
      JoinChanges(row, first, changes, head, tail);
      s := head + tail;
    }
  }

  ghost predicate InRow(a: TaskActivity, x: Slot) {
    a.changes.Arr? && 0 <= x.change < |a.changes.items| && InChange(a.changes.items[x.change], x.to, x.item)
  }

  /** The slots of a history, its first row numbered `first`. */
  ghost predicate HasRows(s: set<Slot>, first: int, activity: seq<TaskActivity>) {
    forall x :: x in s <==> 0 <= x.row - first < |activity| && InRow(activity[x.row - first], x)
  }

  lemma JoinRows(first: int, activity: seq<TaskActivity>, head: set<Slot>, tail: set<Slot>)
    requires activity != [] && (forall x :: x in head <==> x.row == first && InRow(activity[0], x)) && HasRows(tail, first + 1, activity[1..])
    ensures head !! tail && HasRows(head + tail, first, activity)
  {
    hide InRow;
    assert forall i | 0 < i < |activity| :: activity[1..][i - 1] == activity[i];
  }

  lemma RowSlots(row: int, a: TaskActivity) returns (s: set<Slot>)
    ensures |s| == (if a.changes.Arr? then ListCount(a.changes.items) else 0) && forall x :: x in s <==> x.row == row && InRow(a, x)
  {
    hide ListCount, InChange;
    s := {};
    if a.changes.Arr? {
      s := ListSlots(row, 0, a.changes.items);
    }
  }

  lemma NoRows(first: int)
    ensures HasRows({}, first, [])
  {
  }

  lemma {:induction false} HistorySlots(first: int, activity: seq<TaskActivity>) returns (s: set<Slot>)
    ensures |s| == HistoryCount(activity) && HasRows(s, first, activity)
    decreases |activity|
  {
    hide ListCount, InRow, HasRows;
    s := {};
    if activity == [] {
      NoRows(first);
    } else {
      var head := RowSlots(first, activity[0]);
      var tail := HistorySlots(first + 1, activity[1..]);
      JoinRows(first, activity, head, tail);
      s := head + tail;
    }
  }

  /** The count is the number of places in the history that can hold a reference, whatever they hold. */
  lemma CountIs(activity: seq<TaskActivity>) returns (slots: set<Slot>)
    ensures HistoryCount(activity) == |slots| && forall x :: x in slots <==> IsSlot(activity, x)
  {
    hide InChange;
    slots := HistorySlots(0, activity);
  }

  // ---------------------------------------------------------------- purged_refs

  /** Ids of one kind that are named and not live. */
  ghost predicate IsPurged(refs: seq<Ref>, isLabel: bool, live: set<Uuid>, id: Uuid) {
    Ref(isLabel, id) in refs && id !in live
  }

  ghost predicate IsPurgedSet(refs: seq<Ref>, isLabel: bool, live: set<Uuid>, ids: set<Uuid>) {
    forall id :: id in ids <==> IsPurged(refs, isLabel, live, id)
  }

  /** The two kinds keep apart: no id is purged as both, or purged as one and live as the other. */
  ghost predicate KindsApart(labels: set<Uuid>, milestones: set<Uuid>, liveLabels: set<Uuid>, liveMilestones: set<Uuid>) {
    labels !! milestones && labels !! liveMilestones && milestones !! liveLabels
  }

  ghost predicate IsResult(refs: seq<Ref>, liveLabels: set<Uuid>, liveMilestones: set<Uuid>, labels: set<Uuid>, milestones: set<Uuid>) {
    IsPurgedSet(refs, true, liveLabels, labels) && IsPurgedSet(refs, false, liveMilestones, milestones)
  }

  /** The admission loop: a new distinct id beyond the limit is refused before it is inserted. */
  method Admit(refs: seq<Ref>, liveLabels: set<Uuid>, liveMilestones: set<Uuid>)
    returns (ok: bool, labels: set<Uuid>, milestones: set<Uuid>)
    ensures ok ==> IsResult(refs, liveLabels, liveMilestones, labels, milestones) && |labels| <= MAX_ENTRIES && |milestones| <= MAX_ENTRIES
    ensures !ok ==> forall l, m | IsResult(refs, liveLabels, liveMilestones, l, m) :: |l| > MAX_ENTRIES || |m| > MAX_ENTRIES
  {
    labels, milestones := {}, {};
    for i := 0 to |refs|
      invariant IsResult(refs[..i], liveLabels, liveMilestones, labels, milestones)
      invariant |labels| <= MAX_ENTRIES && |milestones| <= MAX_ENTRIES
    {
      var r := refs[i];
      assert refs[..i + 1] == refs[..i] + [r];
      if r.isLabel {
        if r.id !in liveLabels && r.id !in labels {
          if |labels| >= MAX_ENTRIES {
            TooMany(refs, i, liveLabels, liveMilestones, labels, milestones);
            return false, labels, milestones;
          }
          labels := labels + {r.id};
        }
      } else {
        if r.id !in liveMilestones && r.id !in milestones {
          if |milestones| >= MAX_ENTRIES {
            TooMany(refs, i, liveLabels, liveMilestones, labels, milestones);
            return false, labels, milestones;
          }
          milestones := milestones + {r.id};
        }
      }
    }
    assert refs[..|refs|] == refs;
    ok := true;
  }

  lemma TooMany(refs: seq<Ref>, i: nat, liveLabels: set<Uuid>, liveMilestones: set<Uuid>, labels: set<Uuid>, milestones: set<Uuid>)
    requires i < |refs| && IsResult(refs[..i], liveLabels, liveMilestones, labels, milestones)
    requires if refs[i].isLabel then refs[i].id !in liveLabels && refs[i].id !in labels && |labels| >= MAX_ENTRIES
             else refs[i].id !in liveMilestones && refs[i].id !in milestones && |milestones| >= MAX_ENTRIES
    ensures forall l, m | IsResult(refs, liveLabels, liveMilestones, l, m) :: |l| > MAX_ENTRIES || |m| > MAX_ENTRIES
  {
    forall l, m | IsResult(refs, liveLabels, liveMilestones, l, m)
      ensures |l| > MAX_ENTRIES || |m| > MAX_ENTRIES
    {
      var r := refs[i];
      assert r in refs;
      assert forall x | x in refs[..i] :: x in refs;
      if r.isLabel {
        assert r == Ref(true, r.id);
        assert IsPurged(refs, true, liveLabels, r.id);
        forall id | id in labels + {r.id}
          ensures id in l
        {
          assert id in labels ==> IsPurged(refs[..i], true, liveLabels, id);
          assert IsPurged(refs, true, liveLabels, id);
        }
        SubsetSize(labels + {r.id}, l);
      } else {
        assert r == Ref(false, r.id);
        assert IsPurged(refs, false, liveMilestones, r.id);
        forall id | id in milestones + {r.id}
          ensures id in m
        {
          assert id in milestones ==> IsPurged(refs[..i], false, liveMilestones, id);
          assert IsPurged(refs, false, liveMilestones, id);
        }
        SubsetSize(milestones + {r.id}, m);
      }
    }
  }

  /** A purged set is determined by the references and the live rows. */
  lemma ResultUnique(refs: seq<Ref>, liveLabels: set<Uuid>, liveMilestones: set<Uuid>, l: set<Uuid>, m: set<Uuid>, l': set<Uuid>, m': set<Uuid>)
    requires IsResult(refs, liveLabels, liveMilestones, l, m) && IsResult(refs, liveLabels, liveMilestones, l', m')
    ensures l == l' && m == m'
  {
    forall id
      ensures id in l <==> id in l'
      ensures id in m <==> id in m'
    {
      assert id in l <==> IsPurged(refs, true, liveLabels, id);
      assert id in l' <==> IsPurged(refs, true, liveLabels, id);
      assert id in m <==> IsPurged(refs, false, liveMilestones, id);
      assert id in m' <==> IsPurged(refs, false, liveMilestones, id);
    }
  }

  /** `purged_refs`: the sets of purged identities, or the refusal; both are determined by what is named. */
  method PurgedRefs(activity: seq<TaskActivity>, viewRefs: seq<Ref>, liveLabels: set<Uuid>, liveMilestones: set<Uuid>)
    returns (r: Result<(set<Uuid>, set<Uuid>), Error>)
    ensures r.Ok? ==>
              && IsResult(HistoryRefs(activity) + viewRefs, liveLabels, liveMilestones, r.value.0, r.value.1)
              && |r.value.0| <= MAX_ENTRIES && |r.value.1| <= MAX_ENTRIES
              && KindsApart(r.value.0, r.value.1, liveLabels, liveMilestones)
              && HistoryCount(activity) + |viewRefs| <= MAX_REFERENCES
    ensures r == Err(Unsupported) ==>
              forall l, m | IsResult(HistoryRefs(activity) + viewRefs, liveLabels, liveMilestones, l, m) :: !KindsApart(l, m, liveLabels, liveMilestones)
    ensures r == Err(Limit) ==>
              || HistoryCount(activity) + |viewRefs| > MAX_REFERENCES
              || forall l, m | IsResult(HistoryRefs(activity) + viewRefs, liveLabels, liveMilestones, l, m) :: |l| > MAX_ENTRIES || |m| > MAX_ENTRIES
  {
    hide HistoryRefs, HistoryCount, IsPurgedSet;
    if HistoryCount(activity) + |viewRefs| > MAX_REFERENCES {
      return Err(Limit);
    }
    var refs := HistoryRefs(activity) + viewRefs;
    var ok, labels, milestones := Admit(refs, liveLabels, liveMilestones);
    if !ok {
      return Err(Limit);
    }
    if !(labels !! milestones && labels !! liveMilestones && milestones !! liveLabels) {
      forall l, m | IsResult(refs, liveLabels, liveMilestones, l, m)
        ensures !KindsApart(l, m, liveLabels, liveMilestones)
      {
        ResultUnique(refs, liveLabels, liveMilestones, labels, milestones, l, m);
      }
      return Err(Unsupported);
    }
    return Ok((labels, milestones));
  }

  // ---------------------------------------------------------------- accepted archives

  /** The part of a graph the purged lists depend on, and the lists themselves. */
  datatype Graph = Graph(activity: seq<TaskActivity>, views: seq<Option<Views.Query>>, labels: set<Uuid>, milestones: set<Uuid>,
                         purgedLabels: seq<Uuid>, purgedMilestones: seq<Uuid>)

  function ListSet(s: seq<Uuid>): set<Uuid> {
    set x | x in s
  }

  /** The label ids that history and view filters may name. */
  function LabelRefs(g: Graph): set<Uuid> {
    g.labels + ListSet(g.purgedLabels)
  }

  function MilestoneRefs(g: Graph): set<Uuid> {
    g.milestones + ListSet(g.purgedMilestones)
  }

  ghost predicate Strictly(s: seq<Uuid>) {
    forall i, j | 0 <= i < j < |s| :: s[i] < s[j]
  }

  /** The validator's rules for the lists: sorted, apart from live rows and each other, and named as their own kind. */
  ghost predicate ListsOk(g: Graph) {
    && |g.purgedLabels| <= MAX_ENTRIES && |g.purgedMilestones| <= MAX_ENTRIES
    && Strictly(g.purgedLabels) && Strictly(g.purgedMilestones)
    && ListSet(g.purgedLabels) !! (g.labels + g.milestones + ListSet(g.purgedMilestones))
    && ListSet(g.purgedMilestones) !! (g.labels + g.milestones)
    && (forall id | id in g.purgedLabels :: Named(g.activity, g.views, Ref(true, id)))
    && (forall id | id in g.purgedMilestones :: Named(g.activity, g.views, Ref(false, id)))
  }

  /** The references can be collected at all: within the limits, the two kinds apart. */
  ghost predicate Collectable(g: Graph) {
    && HistoryCount(g.activity) + 2 * |g.views| <= MAX_REFERENCES
    && exists l, m ::
         && IsResult(HistoryRefs(g.activity) + ViewRefs(g.views), g.labels, g.milestones, l, m)
         && |l| <= MAX_ENTRIES && |m| <= MAX_ENTRIES && KindsApart(l, m, g.labels, g.milestones)
  }

  lemma {:induction false} ViewRefsBound(views: seq<Option<Views.Query>>)
    ensures |ViewRefs(views)| <= 2 * |views|
  {
    if views != [] {
      ViewRefsBound(views[1..]);
    }
  }

  lemma CollectedAreNamed(g: Graph, l: set<Uuid>, m: set<Uuid>, id: Uuid)
    requires IsResult(HistoryRefs(g.activity) + ViewRefs(g.views), g.labels, g.milestones, l, m)
    ensures id in l <==> Named(g.activity, g.views, Ref(true, id)) && id !in g.labels
    ensures id in m <==> Named(g.activity, g.views, Ref(false, id)) && id !in g.milestones
  {
    hide HistoryRefs, ViewRefs, ActivityNames, ViewNames;
    var refs := HistoryRefs(g.activity) + ViewRefs(g.views);
    HistoryRefsNamed(g.activity, Ref(true, id));
    ViewRefsNamed(g.views, Ref(true, id));
    HistoryRefsNamed(g.activity, Ref(false, id));
    ViewRefsNamed(g.views, Ref(false, id));
    assert id in l <==> IsPurged(refs, true, g.labels, id);
    assert id in m <==> IsPurged(refs, false, g.milestones, id);
  }

  /** `windows(2)` ascending, and no element live or in the other list. */
  method ListOk(list: seq<Uuid>, other: seq<Uuid>, labels: set<Uuid>, milestones: set<Uuid>) returns (ok: bool)
    ensures ok <==> Strictly(list) && ListSet(list) !! (labels + milestones + ListSet(other))
  {
    for k := 0 to |list|
      invariant forall i, j | 0 <= i < j < k :: list[i] < list[j]
      invariant forall i | 0 <= i < k :: list[i] !in labels && list[i] !in milestones && list[i] !in other
    {
      if (k > 0 && list[k - 1] >= list[k]) || list[k] in labels || list[k] in milestones || list[k] in other {
        assert list[k] in ListSet(list);
        return false;
      }
    }
    ok := true;
  }

  /** The checks of the two lists, before anything may refer to them. */
  method CheckLists(g: Graph) returns (ok: bool)
    ensures ok <==> ListsOk(g) && Collectable(g)
  {
    hide HistoryCount, HistoryRefs, ViewRefs, IsResult, KindsApart, Strictly, Named, Views.Acceptable;
    ok := false;
    if |g.purgedLabels| > MAX_ENTRIES || |g.purgedMilestones| > MAX_ENTRIES { return; }
    var labelsOk := ListOk(g.purgedLabels, g.purgedMilestones, g.labels, g.milestones);
    if !labelsOk { return; }
    var milestonesOk := ListOk(g.purgedMilestones, g.purgedLabels, g.labels, g.milestones);
    if !milestonesOk { return; }
    if HistoryCount(g.activity) + 2 * |g.views| > MAX_REFERENCES { return; }
    ViewRefsBound(g.views);
    var r := PurgedRefs(g.activity, ViewRefs(g.views), g.labels, g.milestones);
    if r.Err? {
      match r.error {
        case Limit => assert r == Err(Limit);
        case Unsupported => assert r == Err(Unsupported);
      }
      return;
    }
    forall id: Uuid
      ensures id in r.value.0 <==> Named(g.activity, g.views, Ref(true, id)) && id !in g.labels
      ensures id in r.value.1 <==> Named(g.activity, g.views, Ref(false, id)) && id !in g.milestones
    {
      CollectedAreNamed(g, r.value.0, r.value.1, id);
    }
    assert Collectable(g);
    ListSetIs(g.purgedLabels);
    ListSetIs(g.purgedMilestones);
    ok := ListSet(g.purgedLabels) <= r.value.0 && ListSet(g.purgedMilestones) <= r.value.1;
  }

  lemma ListSetIs(s: seq<Uuid>)
    ensures forall id :: id in ListSet(s) <==> id in s
  {
  }

  /** Every view parses and keeps its label and milestone filters in scope (one clause of its query check). */
  ghost predicate ViewsOk(g: Graph, scopes: seq<Views.Scope>) {
    && |scopes| == |g.views|
    && forall n | 0 <= n < |g.views| ::
         && g.views[n].Some? && scopes[n].labels == LabelRefs(g) && scopes[n].milestones == MilestoneRefs(g)
         && Views.Acceptable(g.views[n].value, scopes[n])
  }

  /** Every activity is a bare creation or a supported change. */
  ghost predicate ActivityOk(g: Graph, s: Activity.Scope) {
    && s.labels == LabelRefs(g) && s.milestones == MilestoneRefs(g)
    && forall n | 0 <= n < |g.activity| ::
         || (g.activity[n].kind == "created" && g.activity[n].changes == Arr([]))
         || (g.activity[n].kind == "changed" && Activity.ChangesSupported(g.activity[n].changes, s))
  }

  ghost predicate Accepted(g: Graph, scopes: seq<Views.Scope>, s: Activity.Scope) {
    ListsOk(g) && ViewsOk(g, scopes) && ActivityOk(g, s)
  }

  lemma ViewNamesInScope(g: Graph, scopes: seq<Views.Scope>, r: Ref)
    requires ViewsOk(g, scopes) && ViewNames(g.views, r)
    ensures r.id in if r.isLabel then LabelRefs(g) else MilestoneRefs(g)
  {
    hide LabelRefs, MilestoneRefs, Views.CustomOk, Views.SortOk, Views.OverDocuments;
    var n :| 0 <= n < |g.views| && g.views[n].Some?
      && (if r.isLabel then g.views[n].value.labelId else g.views[n].value.milestone) == Some(r.id);
    assert Views.Acceptable(g.views[n].value, scopes[n]);
  }

  /** A reference inside a supported label or milestone side names an id in scope. */
  lemma SideInScope(isLabel: bool, v: Json, s: Activity.Scope, id: Uuid)
    requires Activity.SideOk(if isLabel then "labelIds" else "milestoneId", v, s) && Holds(isLabel, v, id)
    ensures id in if isLabel then s.labels else s.milestones
  {
    hide Parse, Activity.OptionalText;
    if isLabel {
      var k :| 0 <= k < |v.items| && IdOf(v.items[k]) == Some(id);
      assert Activity.Reference(v.items[k]).Some?
        && Activity.LabelOk(s, Activity.Reference(v.items[k]).value.0, Activity.Reference(v.items[k]).value.1);
    }
  }

  lemma ActivityNamesInScope(g: Graph, s: Activity.Scope, r: Ref)
    requires ActivityOk(g, s) && ActivityNames(g.activity, r)
    ensures r.id in if r.isLabel then LabelRefs(g) else MilestoneRefs(g)
  {
    hide LabelRefs, MilestoneRefs, Holds, Activity.SideOk;
    var n, v :| 0 <= n < |g.activity| && NamesSide(g.activity[n], r.isLabel, v) && Holds(r.isLabel, v, r.id);
    var a := g.activity[n];
    var i, side :| IsSide(a, i, side, r.isLabel, v);
    assert a.changes != Arr([]);
    assert Activity.ChangesSupported(a.changes, s);
    assert Activity.ChangeOk(a.changes.items[i], s);
    SideInScope(r.isLabel, v, s, r.id);
  }

  /**
    * In every accepted archive the purged lists are exactly the non-live ids that history or a view
    * filter names, label by label and milestone by milestone: nothing missing, nothing padded.
    */
  lemma ListsAreExact(g: Graph, scopes: seq<Views.Scope>, s: Activity.Scope, id: Uuid)
    requires Accepted(g, scopes, s)
    ensures id in g.purgedLabels <==> Named(g.activity, g.views, Ref(true, id)) && id !in g.labels
    ensures id in g.purgedMilestones <==> Named(g.activity, g.views, Ref(false, id)) && id !in g.milestones
  {
    hide ActivityNames, ViewNames, ViewsOk, ActivityOk;
    forall isLabel: bool | Named(g.activity, g.views, Ref(isLabel, id))
      ensures id in if isLabel then LabelRefs(g) else MilestoneRefs(g)
    {
      if ActivityNames(g.activity, Ref(isLabel, id)) {
        ActivityNamesInScope(g, s, Ref(isLabel, id));
      } else {
        ViewNamesInScope(g, scopes, Ref(isLabel, id));
      }
    }
    assert id in g.purgedLabels ==> id in ListSet(g.purgedLabels);
    assert id in g.purgedMilestones ==> id in ListSet(g.purgedMilestones);
  }

  /** Two accepted archives that differ at most in their purged lists do not differ at all. */
  lemma ListsAreDetermined(a: Graph, b: Graph, scopesA: seq<Views.Scope>, scopesB: seq<Views.Scope>, sA: Activity.Scope, sB: Activity.Scope)
    requires Accepted(a, scopesA, sA) && Accepted(b, scopesB, sB)
    requires a.activity == b.activity && a.views == b.views && a.labels == b.labels && a.milestones == b.milestones
    ensures a == b
  {
    hide Named, ViewsOk, ActivityOk;
    forall id: Uuid
      ensures id in a.purgedLabels <==> id in b.purgedLabels
      ensures id in a.purgedMilestones <==> id in b.purgedMilestones
    {
      ListsAreExact(a, scopesA, sA, id);
      ListsAreExact(b, scopesB, sB, id);
    }
    SortedUnique(a.purgedLabels, b.purgedLabels);
    SortedUnique(a.purgedMilestones, b.purgedMilestones);
  }

  lemma SortedUnique(a: seq<Uuid>, b: seq<Uuid>)
    requires Strictly(a) && Strictly(b) && forall id: Uuid :: id in a <==> id in b
    ensures a == b
  {
    forall x: nat
      ensures x in a <==> x in b
    {
      if x in a {
        var i :| 0 <= i < |a| && a[i] == x;
        var id: Uuid := a[i];
        assert id in b;
      }
      if x in b {
        var i :| 0 <= i < |b| && b[i] == x;
        var id: Uuid := b[i];
        assert id in a;
      }
    }
    AscendingUnique(a, b);
  }

  /** What `purged_refs` collects for an accepted archive is what its lists hold, so a capture's lists are accepted. */
  lemma CollectedIsListed(g: Graph, scopes: seq<Views.Scope>, s: Activity.Scope, labels: set<Uuid>, milestones: set<Uuid>)
    requires Accepted(g, scopes, s)
    requires IsResult(HistoryRefs(g.activity) + ViewRefs(g.views), g.labels, g.milestones, labels, milestones)
    ensures labels == ListSet(g.purgedLabels) && milestones == ListSet(g.purgedMilestones)
  {
    hide HistoryRefs, ViewRefs, ActivityNames, ViewNames, ViewsOk, ActivityOk, ListsOk;
    var refs := HistoryRefs(g.activity) + ViewRefs(g.views);
    forall id: Uuid
      ensures id in labels <==> id in g.purgedLabels
      ensures id in milestones <==> id in g.purgedMilestones
    {
      HistoryRefsNamed(g.activity, Ref(true, id));
      ViewRefsNamed(g.views, Ref(true, id));
      HistoryRefsNamed(g.activity, Ref(false, id));
      ViewRefsNamed(g.views, Ref(false, id));
      ListsAreExact(g, scopes, s, id);
      assert id in labels <==> IsPurged(refs, true, g.labels, id);
      assert id in milestones <==> IsPurged(refs, false, g.milestones, id);
    }
  }
}
