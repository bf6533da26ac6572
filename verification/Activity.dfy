/**
  * Recorded task activity: `activity_changes_supported`, the remapping of the source actor on restore
  * and what the two promise together.
  */
module Activity {
  import opened Options
  import opened Uuids
  import opened Json
  import Sequences

  const MAX_TASK_REFS := 50

  const ACTIVITY_FIELDS: seq<string> :=
    ["title", "type", "priority", "statusId", "startDate", "dueDate", "dueAt", "estimate", "parentId",
     "milestoneId", "recurrence", "archived", "assigneeIds", "labelIds"]

  /** The product's scalar rules, taken as given. */
  datatype Rules = Rules(title: string -> bool, taskType: string -> bool, priority: string -> bool, isoDate: string -> bool,
                         timestamp: string -> bool, estimate: string -> bool, statusName: string -> bool,
                         labelName: string -> bool, milestoneName: string -> bool)

  /** What an archive (or a destination) lets activity name. */
  datatype Scope = Scope(actor: Uuid, labels: set<Uuid>, statuses: set<Uuid>, tasks: set<Uuid>, milestones: set<Uuid>, rules: Rules)

  // ---------------------------------------------------------------- the check

  /** A stored reference: exactly an id that is a UUID string and a label. */
  function Reference(v: Json): Option<(Uuid, Json)> {
    if v.Obj? && v.fields.Keys == {"id", "label"} && IdOf(v).Some? then Some((IdOf(v).value, v.fields["label"])) else None
  }

  predicate Text(v: Json, ok: string -> bool) {
    v.Str? && ok(v.s)
  }

  predicate OptionalText(v: Json, ok: string -> bool) {
    v.Null? || Text(v, ok)
  }

  /** At most fifty references to distinct identities, each acceptable. */
  predicate References(v: Json, ok: (Uuid, Json) -> bool) {
    && v.Arr? && |v.items| <= MAX_TASK_REFS
    && (forall i | 0 <= i < |v.items| ::
          Reference(v.items[i]).Some? && ok(Reference(v.items[i]).value.0, Reference(v.items[i]).value.1))
    && (forall i, j | 0 <= i < j < |v.items| :: IdOf(v.items[i]) != IdOf(v.items[j]))
  }

  predicate AssigneeOk(s: Scope, id: Uuid, caption: Json) {
    id == s.actor && caption.Null?
  }

  predicate LabelOk(s: Scope, id: Uuid, caption: Json) {
    id in s.labels && OptionalText(caption, s.rules.labelName)
  }

  /** One side of a change has the shape its field stores, with identities in scope. */
  predicate SideOk(field: string, v: Json, s: Scope) {
    match field
    case "title" => Text(v, s.rules.title)
    case "type" => Text(v, s.rules.taskType)
    case "priority" => Text(v, s.rules.priority)
    case "startDate" => OptionalText(v, s.rules.isoDate)
    case "dueDate" => OptionalText(v, s.rules.isoDate)
    case "dueAt" => OptionalText(v, s.rules.timestamp)
    case "estimate" => OptionalText(v, s.rules.estimate)
    case "archived" => v.Bool?
    case "statusId" =>
      (match Reference(v)
       case None => false
       case Some((id, caption)) => id in s.statuses && OptionalText(caption, s.rules.statusName))
    case "parentId" =>
      v.Null? ||
      (match Reference(v)
       case None => false
       case Some((id, caption)) => id in s.tasks && caption.Null?)
    case "assigneeIds" => References(v, (id: Uuid, caption: Json) => AssigneeOk(s, id, caption))
    case "labelIds" => References(v, (id: Uuid, caption: Json) => LabelOk(s, id, caption))
    case "milestoneId" =>
      v.Null? ||
      (match Reference(v)
       case None => false
       case Some((id, caption)) => id in s.milestones && OptionalText(caption, s.rules.milestoneName))
    case "recurrence" => v.Null? || v == Str("daily") || v == Str("weekly") || v == Str("monthly")
    case _ => false
  }

  predicate ChangeOk(change: Json, s: Scope) {
    && change.Obj? && change.fields.Keys == {"field", "from", "to"}
    && change.fields["field"].Str?
    && change.fields["field"].s in ACTIVITY_FIELDS
    && SideOk(change.fields["field"].s, change.fields["from"], s)
    && SideOk(change.fields["field"].s, change.fields["to"], s)
  }

  /** A portable "changed" activity: every change names a distinct field and both sides fit it. */
  predicate ChangesSupported(changes: Json, s: Scope) {
    && changes.Arr? && 1 <= |changes.items| <= |ACTIVITY_FIELDS|
    && (forall i | 0 <= i < |changes.items| :: ChangeOk(changes.items[i], s))
    && (forall i, j | 0 <= i < j < |changes.items| :: Get(changes.items[i], "field") != Get(changes.items[j], "field"))
  }

  // ---------------------------------------------------------------- what the check means

  /** What a caption beside an identity may be: null, or a text that is a valid name. */
  datatype Caption = Never | Valid(name: string -> bool)

  /** What a field stores on either side of a change. */
  datatype Shape =
    | Line(ok: string -> bool, optional: bool)
    | Flag
    | Words(words: set<string>)
    | One(ids: set<Uuid>, caption: Caption, optional: bool)
    | Many(ids: set<Uuid>, caption: Caption)

  ghost function ShapeOf(field: string, s: Scope): Option<Shape> {
    if field == "title" then Some(Line(s.rules.title, false))
    else if field == "type" then Some(Line(s.rules.taskType, false))
    else if field == "priority" then Some(Line(s.rules.priority, false))
    else if field == "startDate" || field == "dueDate" then Some(Line(s.rules.isoDate, true))
    else if field == "dueAt" then Some(Line(s.rules.timestamp, true))
    else if field == "estimate" then Some(Line(s.rules.estimate, true))
    else if field == "recurrence" then Some(Words({"daily", "weekly", "monthly"}))
    else if field == "archived" then Some(Flag)
    else if field == "statusId" then Some(One(s.statuses, Valid(s.rules.statusName), false))
    else if field == "parentId" then Some(One(s.tasks, Never, true))
    else if field == "milestoneId" then Some(One(s.milestones, Valid(s.rules.milestoneName), true))
    else if field == "assigneeIds" then Some(Many({s.actor}, Never))
    else if field == "labelIds" then Some(Many(s.labels, Valid(s.rules.labelName)))
    else None
  }

  ghost predicate CaptionOk(caption: Caption, v: Json) {
    v == Null || (caption.Valid? && exists name :: v == Str(name) && caption.name(name))
  }

  /** An object of exactly an identity and a caption. */
  ghost predicate Refers(v: Json, id: Uuid, caption: Json) {
    exists spelled :: v == Obj(map["id" := spelled, "label" := caption]) && AsUuid(spelled) == Some(id)
  }

  ghost predicate RefersIn(v: Json, ids: set<Uuid>, caption: Caption) {
    exists id, c :: id in ids && Refers(v, id, c) && CaptionOk(caption, c)
  }

  ghost predicate Fits(shape: Shape, v: Json) {
    match shape
    case Line(ok, optional) => (optional && v == Null) || exists line :: v == Str(line) && ok(line)
    case Flag => v == Bool(true) || v == Bool(false)
    case Words(words) => v == Null || exists word :: word in words && v == Str(word)
    case One(ids, caption, optional) => (optional && v == Null) || RefersIn(v, ids, caption)
    case Many(ids, caption) =>
      exists items :: v == Arr(items) && |items| <= MAX_TASK_REFS && (forall i | 0 <= i < |items| :: RefersIn(items[i], ids, caption))
                      && forall i, j, id, c, d | 0 <= i < j < |items| && Refers(items[i], id, c) :: !Refers(items[j], id, d)
  }

  lemma ReferenceIs(v: Json, id: Uuid, caption: Json)
    ensures Reference(v) == Some((id, caption)) <==> Refers(v, id, caption)
    ensures Reference(v) == Some((id, caption)) ==> IdOf(v) == Some(id)
  {
    hide Parse;
    if Reference(v) == Some((id, caption)) {
      var spelled := v.fields["id"];
      assert v.fields == map["id" := spelled, "label" := caption];
      assert v == Obj(map["id" := spelled, "label" := caption]) && AsUuid(spelled) == Some(id);
    }
    if Refers(v, id, caption) {
      var spelled :| v == Obj(map["id" := spelled, "label" := caption]) && AsUuid(spelled) == Some(id);
      assert v.fields.Keys == {"id", "label"};
      assert v.fields["id"] == spelled;
    }
  }

  lemma CaptionIs(caption: Caption, v: Json)
    ensures caption.Valid? ==> (OptionalText(v, caption.name) <==> CaptionOk(caption, v))
    ensures caption.Never? ==> (v.Null? <==> CaptionOk(caption, v))
  {
  }

  lemma OneIs(v: Json, ids: set<Uuid>, caption: Caption)
    ensures RefersIn(v, ids, caption) <==>
      Reference(v).Some? && Reference(v).value.0 in ids && CaptionOk(caption, Reference(v).value.1)
  {
    hide Reference, Refers, CaptionOk;
    if Reference(v).Some? {
      ReferenceIs(v, Reference(v).value.0, Reference(v).value.1);
    }
    if RefersIn(v, ids, caption) {
      var id, c :| id in ids && Refers(v, id, c) && CaptionOk(caption, c);
      ReferenceIs(v, id, c);
    }
  }

  lemma ManyIs(v: Json, ids: set<Uuid>, caption: Caption, ok: (Uuid, Json) -> bool)
    requires forall id, c :: ok(id, c) <==> id in ids && CaptionOk(caption, c)
    ensures References(v, ok) <==> Fits(Many(ids, caption), v)
  {
    hide Reference, Refers, CaptionOk, RefersIn, IdOf;
    if v.Arr? {
      var items := v.items;
      forall i | 0 <= i < |items|
        ensures RefersIn(items[i], ids, caption) <==> Reference(items[i]).Some? && ok(Reference(items[i]).value.0, Reference(items[i]).value.1)
      {
        OneIs(items[i], ids, caption);
      }
      if forall i | 0 <= i < |items| :: Reference(items[i]).Some? {
        DistinctIs(items);
      }
    }
  }

  lemma DistinctIs(items: seq<Json>)
    requires forall i | 0 <= i < |items| :: Reference(items[i]).Some?
    ensures (forall i, j | 0 <= i < j < |items| :: IdOf(items[i]) != IdOf(items[j])) <==>
            forall i, j, id, c, d | 0 <= i < j < |items| && Refers(items[i], id, c) :: !Refers(items[j], id, d)
  {
    hide Reference, Refers, IdOf;
    forall i: int, id: Uuid, c: Json | 0 <= i < |items| && Refers(items[i], id, c)
      ensures IdOf(items[i]) == Some(id)
    {
      ReferenceIs(items[i], id, c);
    }
    forall i | 0 <= i < |items|
      ensures IdOf(items[i]) == Some(Reference(items[i]).value.0) && Refers(items[i], Reference(items[i]).value.0, Reference(items[i]).value.1)
    {
      ReferenceIs(items[i], Reference(items[i]).value.0, Reference(items[i]).value.1);
    }
  }

  /** The side has the shape its field stores. */
  ghost predicate HasShape(field: string, v: Json, s: Scope) {
    ShapeOf(field, s).Some? && Fits(ShapeOf(field, s).value, v)
  }

  lemma StatusIs(v: Json, s: Scope)
    ensures SideOk("statusId", v, s) <==> HasShape("statusId", v, s)
  {
    hide Reference, RefersIn, CaptionOk, OptionalText;
    OneIs(v, s.statuses, Valid(s.rules.statusName));
    if Reference(v).Some? {
      CaptionIs(Valid(s.rules.statusName), Reference(v).value.1);
    }
  }

  lemma ParentIs(v: Json, s: Scope)
    ensures SideOk("parentId", v, s) <==> HasShape("parentId", v, s)
  {
    hide Reference, RefersIn, CaptionOk;
    OneIs(v, s.tasks, Never);
    if Reference(v).Some? {
      CaptionIs(Never, Reference(v).value.1);
    }
  }

  lemma MilestoneIs(v: Json, s: Scope)
    ensures SideOk("milestoneId", v, s) <==> HasShape("milestoneId", v, s)
  {
    hide Reference, RefersIn, CaptionOk, OptionalText;
    OneIs(v, s.milestones, Valid(s.rules.milestoneName));
    if Reference(v).Some? {
      CaptionIs(Valid(s.rules.milestoneName), Reference(v).value.1);
    }
  }

  lemma AssigneesAre(v: Json, s: Scope)
    ensures SideOk("assigneeIds", v, s) <==> HasShape("assigneeIds", v, s)
  {
    hide References, Fits, CaptionOk;
    forall id, c
      ensures AssigneeOk(s, id, c) <==> id in {s.actor} && CaptionOk(Never, c)
    {
      CaptionIs(Never, c);
    }
    ManyIs(v, {s.actor}, Never, (id: Uuid, caption: Json) => AssigneeOk(s, id, caption));
  }

  lemma LabelsAre(v: Json, s: Scope)
    ensures SideOk("labelIds", v, s) <==> HasShape("labelIds", v, s)
  {
    hide References, Fits, CaptionOk, OptionalText;
    forall id, c
      ensures LabelOk(s, id, c) <==> id in s.labels && CaptionOk(Valid(s.rules.labelName), c)
    {
      CaptionIs(Valid(s.rules.labelName), c);
    }
    ManyIs(v, s.labels, Valid(s.rules.labelName), (id: Uuid, caption: Json) => LabelOk(s, id, caption));
  }

  /** The arms of the source's match accept exactly the shape each field stores. */
  lemma SideIs(field: string, v: Json, s: Scope)
    ensures SideOk(field, v, s) <==> HasShape(field, v, s)
  {
    hide SideOk, HasShape;
    if field == "statusId" {
      StatusIs(v, s);
    } else if field == "parentId" {
      ParentIs(v, s);
    } else if field == "milestoneId" {
      MilestoneIs(v, s);
    } else if field == "assigneeIds" {
      AssigneesAre(v, s);
    } else if field == "labelIds" {
      LabelsAre(v, s);
    } else {
      PlainSideIs(field, v, s);
    }
  }

  lemma PlainSideIs(field: string, v: Json, s: Scope)
    requires field !in {"statusId", "parentId", "milestoneId", "assigneeIds", "labelIds"}
    ensures SideOk(field, v, s) <==> HasShape(field, v, s)
  {
    hide Reference, References, RefersIn;
  }

  /** One change: exactly a field that the product records and its two sides. */
  ghost predicate IsChange(change: Json, field: string, from: Json, to: Json) {
    change == Obj(map["field" := Str(field), "from" := from, "to" := to])
  }

  /** A list of changes of distinct recorded fields, each with two sides of its shape. */
  ghost predicate Portable(changes: Json, s: Scope) {
    && changes.Arr? && changes.items != []
    && (forall i | 0 <= i < |changes.items| :: exists field, from, to ::
          IsChange(changes.items[i], field, from, to) && HasShape(field, from, s) && HasShape(field, to, s))
    && (forall i, j, f, a, b, c, d | 0 <= i < j < |changes.items| && IsChange(changes.items[i], f, a, b) :: !IsChange(changes.items[j], f, c, d))
  }

  lemma FieldsAre(field: string, s: Scope)
    ensures ShapeOf(field, s).Some? <==> field in ACTIVITY_FIELDS
  {
    var f := ACTIVITY_FIELDS;
    assert f[0] == "title" && f[1] == "type" && f[2] == "priority" && f[3] == "statusId" && f[4] == "startDate" && f[5] == "dueDate" && f[6] == "dueAt";
    assert f[7] == "estimate" && f[8] == "parentId" && f[9] == "milestoneId" && f[10] == "recurrence" && f[11] == "archived" && f[12] == "assigneeIds";
    assert f[13] == "labelIds";
  }

  lemma ChangeIs(change: Json, s: Scope)
    ensures ChangeOk(change, s) <==> exists field, from, to :: IsChange(change, field, from, to) && HasShape(field, from, s) && HasShape(field, to, s)
    ensures ChangeOk(change, s) ==> Get(change, "field").Some? && IsChange(change, change.fields["field"].s, change.fields["from"], change.fields["to"])
  {
    hide SideOk, HasShape;
    if change.Obj? && change.fields.Keys == {"field", "from", "to"} && change.fields["field"].Str? {
      var field, from, to := change.fields["field"].s, change.fields["from"], change.fields["to"];
      assert change.fields == map["field" := Str(field), "from" := from, "to" := to];
      assert IsChange(change, field, from, to);
      SideIs(field, from, s);
      SideIs(field, to, s);
      ShapedField(field, from, s);
    }
    if field, from, to :| IsChange(change, field, from, to) && HasShape(field, from, s) && HasShape(field, to, s) {
      assert change.fields.Keys == {"field", "from", "to"};
      assert change.fields["field"] == Str(field) && change.fields["from"] == from && change.fields["to"] == to;
    }
  }

  lemma ShapedField(field: string, v: Json, s: Scope)
    ensures HasShape(field, v, s) ==> field in ACTIVITY_FIELDS
  {
    hide Fits;
    FieldsAre(field, s);
  }

  /** Changes of distinct fields are never more than the fields. */
  lemma DistinctFieldsFit(items: seq<Json>, s: Scope)
    requires forall i | 0 <= i < |items| :: ChangeOk(items[i], s)
    requires forall i, j | 0 <= i < j < |items| :: Get(items[i], "field") != Get(items[j], "field")
    ensures |items| <= |ACTIVITY_FIELDS|
  {
    hide SideOk;
    assert forall i | 0 <= i < |items| :: ChangeOk(items[i], s);
    var fields := seq(|items|, i requires 0 <= i < |items| => items[i].fields["field"].s);
    forall i, j | 0 <= i < j < |fields|
      ensures fields[i] != fields[j]
    {
      assert Get(items[i], "field") != Get(items[j], "field");
      assert Get(items[i], "field") == Some(Str(fields[i])) && Get(items[j], "field") == Some(Str(fields[j]));
    }
    Sequences.DistinctSize(fields);
    Sequences.DistinctSize(ACTIVITY_FIELDS);
    forall f | f in Sequences.ToSet(fields)
      ensures f in Sequences.ToSet(ACTIVITY_FIELDS)
    {
      var i :| 0 <= i < |fields| && fields[i] == f;
      assert ChangeOk(items[i], s);
    }
    Sequences.SubsetSize(Sequences.ToSet(fields), Sequences.ToSet(ACTIVITY_FIELDS));
  }

  /** The check accepts exactly the portable changes; its length limit refuses nothing more. */
  lemma SupportedIs(changes: Json, s: Scope)
    ensures ChangesSupported(changes, s) <==> Portable(changes, s)
  {
    hide ChangeOk, HasShape, IsChange;
    if changes.Arr? {
      var items := changes.items;
      forall i | 0 <= i < |items|
        ensures ChangeOk(items[i], s) <==> exists field, from, to :: IsChange(items[i], field, from, to) && HasShape(field, from, s) && HasShape(field, to, s)
      {
        ChangeIs(items[i], s);
      }
      if forall i | 0 <= i < |items| :: ChangeOk(items[i], s) {
        DistinctFieldsAre(items, s);
        if forall i, j | 0 <= i < j < |items| :: Get(items[i], "field") != Get(items[j], "field") {
          DistinctFieldsFit(items, s);
        }
      }
    }
  }

  lemma DistinctFieldsAre(items: seq<Json>, s: Scope)
    requires forall i | 0 <= i < |items| :: ChangeOk(items[i], s)
    ensures (forall i, j | 0 <= i < j < |items| :: Get(items[i], "field") != Get(items[j], "field")) <==>
            forall i, j, f, a, b, c, d | 0 <= i < j < |items| && IsChange(items[i], f, a, b) :: !IsChange(items[j], f, c, d)
  {
    hide ChangeOk, IsChange, Get;
    forall i: int, f: string, a: Json, b: Json | 0 <= i < |items| && IsChange(items[i], f, a, b)
      ensures Get(items[i], "field") == Some(Str(f))
    {
      FieldOf(items[i], f, a, b);
    }
    forall i | 0 <= i < |items|
      ensures exists f, a, b :: IsChange(items[i], f, a, b)
    {
      ChangeIs(items[i], s);
    }
    if forall i, j, f, a, b, c, d | 0 <= i < j < |items| && IsChange(items[i], f, a, b) :: !IsChange(items[j], f, c, d) {
      forall i, j | 0 <= i < j < |items|
        ensures Get(items[i], "field") != Get(items[j], "field")
      {
        var f, a, b :| IsChange(items[i], f, a, b);
        var g, c, d :| IsChange(items[j], g, c, d);
      }
    }
  }

  lemma FieldOf(change: Json, f: string, a: Json, b: Json)
    requires IsChange(change, f, a, b)
    ensures Get(change, "field") == Some(Str(f))
  {
  }

  /** `activity_changes_supported`: one pass with the set of fields seen. */
  method CheckChanges(changes: Json, s: Scope) returns (ok: bool)
    ensures ok <==> Portable(changes, s)
  {
    hide ChangeOk, Portable, IsChange, HasShape, Get;
    SupportedIs(changes, s);
    if !changes.Arr? || changes.items == [] || |changes.items| > |ACTIVITY_FIELDS| {
      return false;
    }
    var seen: set<Json> := {};
    for i := 0 to |changes.items|
      invariant forall j | 0 <= j < i :: ChangeOk(changes.items[j], s)
      invariant forall j, k | 0 <= j < k < i :: Get(changes.items[j], "field") != Get(changes.items[k], "field")
      invariant forall f :: f in seen <==> exists j :: 0 <= j < i && Get(changes.items[j], "field") == Some(f)
    {
      var change := changes.items[i];
      if !ChangeOk(change, s) {
        return false;
      }
      ChangeIs(change, s);
      var field := Get(change, "field");
      if field.value in seen {
        return false;
      }
      seen := seen + {field.value};
    }
    return true;
  }

  // ---------------------------------------------------------------- the remapping

  /** An assignee reference to `source`, rewritten to name `destination`. */
  function MappedItem(item: Json, source: Uuid, destination: Uuid): Json {
    if IdOf(item) == Some(source) then Obj(item.fields["id" := UuidJson(destination)]) else item
  }

  function MappedItems(items: seq<Json>, source: Uuid, destination: Uuid): (r: seq<Json>)
    ensures |r| == |items|
    ensures forall i | 0 <= i < |items| :: r[i] == MappedItem(items[i], source, destination)
  {
    if items == [] then [] else [MappedItem(items[0], source, destination)] + MappedItems(items[1..], source, destination)
  }

  function MappedSide(v: Json, source: Uuid, destination: Uuid): Json {
    if v.Arr? then Arr(MappedItems(v.items, source, destination)) else v
  }

  /** One key of a change object, if present. */
  function MappedKey(change: Json, side: string, source: Uuid, destination: Uuid): (r: Json)
    requires change.Obj?
    ensures r.Obj? && r.fields.Keys == change.fields.Keys
  {
    if side in change.fields
    then Obj(change.fields[side := MappedSide(change.fields[side], source, destination)])
    else change
  }

  function MappedChange(change: Json, source: Uuid, destination: Uuid): Json {
    if Get(change, "field") == Some(Str("assigneeIds"))
    then MappedKey(MappedKey(change, "from", source, destination), "to", source, destination)
    else change
  }

  function MappedList(list: seq<Json>, source: Uuid, destination: Uuid): (r: seq<Json>)
    ensures |r| == |list|
    ensures forall i | 0 <= i < |list| :: r[i] == MappedChange(list[i], source, destination)
  {
    if list == [] then [] else [MappedChange(list[0], source, destination)] + MappedList(list[1..], source, destination)
  }

  /** What restoring makes of an activity's changes. */
  function MappedChanges(changes: Json, source: Uuid, destination: Uuid): Json {
    if changes.Arr? then Arr(MappedList(changes.items, source, destination)) else changes
  }

  /** `mapped_activity_changes`: the nested loops over a clone. */
  method MapActivityChanges(changes: Json, source: Uuid, destination: Uuid) returns (r: Json)
    ensures r == MappedChanges(changes, source, destination)
  {
    hide Parse, ToString, MappedKey;
    if !changes.Arr? {
      return changes;
    }
    var list := changes.items;
    for i := 0 to |list|
      invariant |list| == |changes.items|
      invariant forall j | 0 <= j < i :: list[j] == MappedChange(changes.items[j], source, destination)
      invariant forall j | i <= j < |list| :: list[j] == changes.items[j]
    {
      var change := list[i];
      if Get(change, "field") == Some(Str("assigneeIds")) {
        change := MapSide(change, "from", source, destination);
        change := MapSide(change, "to", source, destination);
        list := list[i := change];
      }
    }
    assert list == MappedList(changes.items, source, destination);
    return Arr(list);
  }

  method MapSide(change: Json, side: string, source: Uuid, destination: Uuid) returns (r: Json)
    requires change.Obj?
    ensures r == MappedKey(change, side, source, destination)
  {
    hide Parse, ToString;
    if side !in change.fields || !change.fields[side].Arr? {
      assert side in change.fields ==> change.fields[side := change.fields[side]] == change.fields;
      return change;
    }
    var old_items := change.fields[side].items;
    var items := old_items;
    for i := 0 to |items|
      invariant |items| == |old_items|
      invariant forall j | 0 <= j < i :: items[j] == MappedItem(old_items[j], source, destination)
      invariant forall j | i <= j < |items| :: items[j] == old_items[j]
    {
      if IdOf(items[i]) == Some(source) {
        items := items[i := Obj(items[i].fields["id" := UuidJson(destination)])];
      }
    }
    assert items == MappedItems(old_items, source, destination);
    return Obj(change.fields[side := Arr(items)]);
  }

  // ---------------------------------------------------------------- acceptance is preserved

  function Retarget(s: Scope, destination: Uuid): Scope {
    s.(actor := destination)
  }

  lemma MappedReference(item: Json, s: Scope, destination: Uuid)
    requires Reference(item).Some? && AssigneeOk(s, Reference(item).value.0, Reference(item).value.1)
    ensures var m := MappedItem(item, s.actor, destination);
            Reference(m) == Some((destination, Null)) && IdOf(m) == Some(destination)
  {
    hide Parse, ToString;
    UuidJsonIs(destination);
    var m := MappedItem(item, s.actor, destination);
    assert m.fields.Keys == item.fields.Keys;
  }

  /** Assignees name only the actor, so a side has at most one of them; it is still one after mapping. */
  lemma MappedAssignees(v: Json, s: Scope, destination: Uuid)
    requires SideOk("assigneeIds", v, s)
    ensures SideOk("assigneeIds", MappedSide(v, s.actor, destination), Retarget(s, destination))
  {
    hide Parse, ToString;
    var items := MappedItems(v.items, s.actor, destination);
    forall i | 0 <= i < |v.items|
      ensures Reference(items[i]) == Some((destination, Null)) && Reference(v.items[i]).Some? && IdOf(v.items[i]) == Some(s.actor)
    {
      MappedReference(v.items[i], s, destination);
    }
  }

  /** The actor occurs in no other field's rule. */
  lemma OtherSides(field: string, v: Json, s: Scope, destination: Uuid)
    requires field != "assigneeIds" && SideOk(field, v, s)
    ensures SideOk(field, v, Retarget(s, destination))
  {
    hide Reference, OptionalText;
    if field == "labelIds" {
      forall i | 0 <= i < |v.items|
        ensures Reference(v.items[i]).Some? && LabelOk(Retarget(s, destination), Reference(v.items[i]).value.0, Reference(v.items[i]).value.1)
      {
        assert LabelOk(s, Reference(v.items[i]).value.0, Reference(v.items[i]).value.1);
      }
    }
  }

  lemma MappedChangeOk(change: Json, s: Scope, destination: Uuid)
    requires ChangeOk(change, s)
    ensures ChangeOk(MappedChange(change, s.actor, destination), Retarget(s, destination))
    ensures Get(MappedChange(change, s.actor, destination), "field") == Get(change, "field")
  {
    hide SideOk, MappedSide;
    var field := change.fields["field"].s;
    if field == "assigneeIds" {
      MappedAssignees(change.fields["from"], s, destination);
      MappedAssignees(change.fields["to"], s, destination);
    } else {
      OtherSides(field, change.fields["from"], s, destination);
      OtherSides(field, change.fields["to"], s, destination);
    }
  }

  /** Supported changes stay supported when they are re-checked against the destination actor. */
  lemma MappedChangesSupported(changes: Json, s: Scope, destination: Uuid)
    requires ChangesSupported(changes, s)
    ensures ChangesSupported(MappedChanges(changes, s.actor, destination), Retarget(s, destination))
  {
    hide ChangeOk, MappedChange;
    var m := MappedChanges(changes, s.actor, destination).items;
    forall i | 0 <= i < |m|
      ensures ChangeOk(m[i], Retarget(s, destination)) && Get(m[i], "field") == Get(changes.items[i], "field")
    {
      MappedChangeOk(changes.items[i], s, destination);
    }
  }

  // ---------------------------------------------------------------- nothing else changes

  /** The same value except, in a reference, another spelling or identity of the id. */
  ghost predicate SameButId(a: Json, b: Json) {
    a == b || (a.Obj? && b.Obj? && a.fields.Keys == b.fields.Keys && "id" in a.fields && forall k | k in a.fields && k != "id" :: a.fields[k] == b.fields[k])
  }

  ghost predicate SameItems(a: Json, b: Json) {
    a == b || (a.Arr? && b.Arr? && |a.items| == |b.items| && forall i | 0 <= i < |a.items| :: SameButId(a.items[i], b.items[i]))
  }

  /** Two changes agree outside the ids of an assignee change's two lists. */
  ghost predicate SameChange(a: Json, b: Json) {
    a == b ||
    (&& a.Obj? && b.Obj? && a.fields.Keys == b.fields.Keys && Get(a, "field") == Some(Str("assigneeIds"))
     && (forall k | k in a.fields && k != "from" && k != "to" :: a.fields[k] == b.fields[k])
     && ("from" in a.fields ==> SameItems(a.fields["from"], b.fields["from"]))
     && ("to" in a.fields ==> SameItems(a.fields["to"], b.fields["to"])))
  }

  lemma MappedSideKeeps(v: Json, source: Uuid, destination: Uuid)
    ensures SameItems(v, MappedSide(v, source, destination))
  {
  }

  /** Mapping touches only assignee ids. */
  lemma MappedOnlyAssignees(changes: Json, source: Uuid, destination: Uuid)
    ensures var m := MappedChanges(changes, source, destination);
            m == changes || (m.Arr? && changes.Arr? && |m.items| == |changes.items|
                             && forall i | 0 <= i < |m.items| :: SameChange(changes.items[i], m.items[i]))
  {
    hide MappedSide, SameItems;
    if changes.Arr? {
      forall i | 0 <= i < |changes.items|
        ensures SameChange(changes.items[i], MappedChange(changes.items[i], source, destination))
      {
        var c := changes.items[i];
        if Get(c, "field") == Some(Str("assigneeIds")) {
          if "from" in c.fields { MappedSideKeeps(c.fields["from"], source, destination); }
          if "to" in c.fields { MappedSideKeeps(c.fields["to"], source, destination); }
        }
      }
    }
  }

  // ---------------------------------------------------------------- mapping back

  lemma MappedItemBack(item: Json, source: Uuid, destination: Uuid)
    requires IdOf(item) == Some(source)
    ensures MappedItem(MappedItem(item, source, destination), destination, source) == MappedItem(item, source, source)
  {
    hide Parse, ToString;
    UuidJsonIs(destination);
    assert item.fields["id" := UuidJson(destination)]["id" := UuidJson(source)] == item.fields["id" := UuidJson(source)];
  }

  lemma AssigneeIds(v: Json, s: Scope)
    requires SideOk("assigneeIds", v, s)
    ensures v.Arr? && forall i | 0 <= i < |v.items| :: IdOf(v.items[i]) == Some(s.actor)
  {
    hide Parse;
    forall i | 0 <= i < |v.items|
      ensures IdOf(v.items[i]) == Some(s.actor)
    {
      assert Reference(v.items[i]).Some? && AssigneeOk(s, Reference(v.items[i]).value.0, Reference(v.items[i]).value.1);
    }
  }

  lemma MappedSideBack(v: Json, s: Scope, destination: Uuid)
    requires SideOk("assigneeIds", v, s)
    ensures MappedSide(MappedSide(v, s.actor, destination), destination, s.actor) == MappedSide(v, s.actor, s.actor)
  {
    AssigneeIds(v, s);
    MappedItemsBack(v.items, s.actor, destination);
  }

  lemma {:induction false} MappedItemsBack(items: seq<Json>, source: Uuid, destination: Uuid)
    requires forall i | 0 <= i < |items| :: IdOf(items[i]) == Some(source)
    ensures MappedItems(MappedItems(items, source, destination), destination, source) == MappedItems(items, source, source)
  {
    hide MappedItem, IdOf;
    var there := MappedItems(items, source, destination);
    var back, canonical := MappedItems(there, destination, source), MappedItems(items, source, source);
    forall i | 0 <= i < |items|
      ensures back[i] == canonical[i]
    {
      MappedItemBack(items[i], source, destination);
    }
    assert back == canonical;
  }

  lemma MappedChangeBack(change: Json, s: Scope, destination: Uuid)
    requires ChangeOk(change, s)
    ensures MappedChange(MappedChange(change, s.actor, destination), destination, s.actor) == MappedChange(change, s.actor, s.actor)
  {
    hide SideOk, MappedSide;
    if change.fields["field"].s == "assigneeIds" {
      MappedSideBack(change.fields["from"], s, destination);
      MappedSideBack(change.fields["to"], s, destination);
      var back := MappedChange(MappedChange(change, s.actor, destination), destination, s.actor);
      assert back.fields == MappedChange(change, s.actor, s.actor).fields;
    }
  }

  lemma {:induction false} RespelledItem(item: Json, actor: Uuid)
    ensures SameSpelled(item, MappedItem(item, actor, actor))
  {
    hide Parse, ToString;
    UuidJsonIs(actor);
    if IdOf(item) == Some(actor) {
      var m := MappedItem(item, actor, actor);
      forall k | k in item.fields
        ensures SameSpelled(item.fields[k], m.fields[k])
      {
      }
    }
  }

  lemma {:induction false} RespelledSide(v: Json, actor: Uuid)
    ensures SameSpelled(v, MappedSide(v, actor, actor))
  {
    hide MappedItem;
    if v.Arr? {
      forall i | 0 <= i < |v.items|
        ensures SameSpelled(v.items[i], MappedItems(v.items, actor, actor)[i])
      {
        RespelledItem(v.items[i], actor);
      }
    }
  }

  lemma {:induction false} RespelledChange(change: Json, actor: Uuid)
    ensures SameSpelled(change, MappedChange(change, actor, actor))
  {
    hide MappedSide;
    if Get(change, "field") == Some(Str("assigneeIds")) {
      var m := MappedChange(change, actor, actor);
      forall k | k in change.fields
        ensures SameSpelled(change.fields[k], m.fields[k])
      {
        RespelledSide(change.fields[k], actor);
      }
    }
  }

  /** Naming the actor anew changes spellings and nothing else. */
  lemma {:induction false} RespelledChanges(changes: Json, actor: Uuid)
    ensures SameSpelled(changes, MappedChanges(changes, actor, actor))
  {
    hide MappedChange;
    if changes.Arr? {
      forall i | 0 <= i < |changes.items|
        ensures SameSpelled(changes.items[i], MappedList(changes.items, actor, actor)[i])
      {
        RespelledChange(changes.items[i], actor);
      }
    }
  }

  /** Mapping back gives the original with the actor's ids in their printed spelling, and so the original up to spelling. */
  lemma {:induction false} MappedChangesBack(changes: Json, s: Scope, destination: Uuid)
    requires ChangesSupported(changes, s)
    ensures MappedChanges(MappedChanges(changes, s.actor, destination), destination, s.actor) == MappedChanges(changes, s.actor, s.actor)
    ensures SameSpelled(changes, MappedChanges(MappedChanges(changes, s.actor, destination), destination, s.actor))
  {
    hide ChangeOk, MappedChange, SameSpelled;
    RespelledChanges(changes, s.actor);
    var there := MappedList(changes.items, s.actor, destination);
    var back, canonical := MappedList(there, destination, s.actor), MappedList(changes.items, s.actor, s.actor);
    forall i | 0 <= i < |back|
      ensures back[i] == canonical[i]
    {
      MappedChangeBack(changes.items[i], s, destination);
    }
    assert back == canonical;
  }
}
