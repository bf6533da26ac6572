/** Saved view queries: `check_view_query`, and `mapped_view_query` on restore. */
module Views {
  import opened Options
  import opened Uuids

  datatype FieldType =
    | PlainText | Paragraph | Number | Date | Datetime | Checkbox
    | Select | MultiSelect | Checkboxes | User | UserMulti | Labels

  predicate HasOptions(t: FieldType) {
    t.Select? || t.MultiSelect? || t.Checkboxes? || t.Labels?
  }

  predicate IsPeople(t: FieldType) {
    t.User? || t.UserMulti?
  }

  /** The scalar types, which have a value column to sort by. */
  predicate HasColumn(t: FieldType) {
    t.PlainText? || t.Paragraph? || t.Number? || t.Date? || t.Datetime? || t.Checkbox?
  }

  /** A collection field; `kind` is `None` when its stored type is unknown. */
  datatype Field = Field(id: Uuid, collection: Uuid, kind: Option<FieldType>)

  datatype FieldOption = FieldOption(id: Uuid, field: Uuid)

  datatype CustomValue = TextValue(raw: string) | NumberValue(n: real) | BoolValue(b: bool)

  datatype Operator = Empty | Equals(value: CustomValue)

  datatype CustomFilter = CustomFilter(field: Uuid, operator: Operator)

  datatype Assignee = Me | Person(id: Uuid)

  datatype SortField = Priority | Due | Updated | Created | Rank | Title | Status | Numbered | ByField(id: Uuid)

  datatype Sort = Sort(field: SortField, ascending: bool)

  datatype Query = Query(taskType: Option<string>, status: Option<Uuid>, priority: Option<string>, openOnly: bool, title: Option<string>,
                         assignee: Option<Assignee>, labelId: Option<Uuid>, milestone: Option<Uuid>, dueBefore: Option<int>,
                         custom: seq<CustomFilter>, sort: seq<Sort>)

  /** What a query may refer to, in an archive or at its destination. */
  datatype Scope = Scope(actor: Uuid, fields: seq<Field>, options: seq<FieldOption>, statuses: set<Uuid>, labels: set<Uuid>,
                         milestones: set<Uuid>, collection: Option<Uuid>, documents: bool,
                         isoDate: string -> bool, timestamp: string -> bool)

  datatype Refusal = Invalid | Outside

  // ---------------------------------------------------------------- the check

  /** The type of the collection's first field with the id. */
  function TypeOf(fields: seq<Field>, collection: Option<Uuid>, id: Uuid): Option<FieldType> {
    if fields == [] then None
    else if fields[0].id == id && collection == Some(fields[0].collection) then fields[0].kind
    else TypeOf(fields[1..], collection, id)
  }

  /** Exactly the 36-character form. */
  function UuidText(raw: string): Option<Uuid> {
    if |raw| == 36 then Parse(raw) else None
  }

  /** The refusal of one custom filter, if any. */
  function CheckCustom(c: CustomFilter, s: Scope): Option<Refusal> {
    match TypeOf(s.fields, s.collection, c.field)
    case None => Some(Outside)
    case Some(kind) =>
      match c.operator
      case Empty => None
      case Equals(TextValue(raw)) =>
        if HasOptions(kind) then
          match UuidText(raw)
          case None => Some(Invalid)
          case Some(option) => if FieldOption(option, c.field) in s.options then None else Some(Outside)
        else if IsPeople(kind) then
          match UuidText(raw)
          case None => Some(Invalid)
          case Some(person) => if person == s.actor then None else Some(Outside)
        else if (kind.Date? && s.isoDate(raw)) || (kind.Datetime? && s.timestamp(raw)) || kind.PlainText? || kind.Paragraph? then None
        else Some(Invalid)
      case Equals(NumberValue(_)) => if kind.Number? then None else Some(Invalid)
      case Equals(BoolValue(_)) => if kind.Checkbox? then None else Some(Invalid)
  }

  function CheckSort(x: Sort, s: Scope): Option<Refusal> {
    if !x.field.ByField? then None
    else
      match TypeOf(s.fields, s.collection, x.field.id)
      case None => Some(Outside)
      case Some(kind) => if HasColumn(kind) then None else Some(Invalid)
  }

  // ---------------------------------------------------------------- what a query may say

  ghost predicate Matches(f: Field, collection: Option<Uuid>, id: Uuid) {
    f.id == id && collection == Some(f.collection)
  }

  /** The collection's first field with the id has the type. */
  ghost predicate Typed(s: Scope, id: Uuid, kind: FieldType) {
    exists i :: 0 <= i < |s.fields| && Matches(s.fields[i], s.collection, id) && s.fields[i].kind == Some(kind)
                && forall j | 0 <= j < i :: !Matches(s.fields[j], s.collection, id)
  }

  /** A 36-character text that spells the identity. */
  ghost predicate Writes(value: CustomValue, id: Uuid) {
    value.TextValue? && |value.raw| == 36 && Parse(value.raw) == Some(id)
  }

  /** The values a field of each type may be compared with. */
  ghost predicate ValueOk(kind: FieldType, value: CustomValue, field: Uuid, s: Scope) {
    match kind
    case PlainText => value.TextValue?
    case Paragraph => value.TextValue?
    case Number => value.NumberValue?
    case Checkbox => value.BoolValue?
    case Date => value.TextValue? && s.isoDate(value.raw)
    case Datetime => value.TextValue? && s.timestamp(value.raw)
    case Select => NamesOption(value, field, s)
    case MultiSelect => NamesOption(value, field, s)
    case Checkboxes => NamesOption(value, field, s)
    case Labels => NamesOption(value, field, s)
    case User => Writes(value, s.actor)
    case UserMulti => Writes(value, s.actor)
  }

  ghost predicate NamesOption(value: CustomValue, field: Uuid, s: Scope) {
    exists option :: Writes(value, option) && FieldOption(option, field) in s.options
  }

  ghost predicate CustomOk(c: CustomFilter, s: Scope) {
    exists kind :: Typed(s, c.field, kind) && (c.operator.Equals? ==> ValueOk(kind, c.operator.value, c.field, s))
  }

  ghost predicate SortOk(x: Sort, s: Scope) {
    x.field.ByField? ==> exists kind :: Typed(s, x.field.id, kind) && kind in {PlainText, Paragraph, Number, Date, Datetime, Checkbox}
  }

  /** A query over documents has a title, custom filters and an order, and no order by a task's column. */
  ghost predicate OverDocuments(q: Query) {
    && q == Query(None, None, None, false, q.title, None, None, None, None, q.custom, q.sort)
    && forall x | x in q.sort :: x.field !in {Priority, Due, Status}
  }

  ghost predicate InScope(id: Option<Uuid>, ids: set<Uuid>) {
    id == None || id.value in ids
  }

  /** A query that restores: writer's shape, and every reference in scope. */
  ghost predicate Acceptable(q: Query, s: Scope) {
    && (s.documents ==> OverDocuments(q))
    && (forall i | 0 <= i < |q.custom| :: CustomOk(q.custom[i], s))
    && (forall i | 0 <= i < |q.sort| :: SortOk(q.sort[i], s))
    && InScope(q.status, s.statuses) && InScope(q.labelId, s.labels) && InScope(q.milestone, s.milestones)
    && (q.assignee == None || q.assignee == Some(Me) || q.assignee == Some(Person(s.actor)))
  }

  lemma {:induction false} TypeOfIs(s: Scope, fields: seq<Field>, done: nat, id: Uuid)
    requires done <= |s.fields| && fields == s.fields[done..] && forall j | 0 <= j < done :: !Matches(s.fields[j], s.collection, id)
    ensures forall kind :: TypeOf(fields, s.collection, id) == Some(kind) <==> Typed(s, id, kind)
    decreases |fields|
  {
    if fields != [] {
      if Matches(s.fields[done], s.collection, id) {
        assert fields[0] == s.fields[done];
      } else {
        TypeOfIs(s, fields[1..], done + 1, id);
      }
    }
  }

  lemma {:induction false} TypeIs(s: Scope, id: Uuid)
    ensures forall kind :: TypeOf(s.fields, s.collection, id) == Some(kind) <==> Typed(s, id, kind)
  {
    TypeOfIs(s, s.fields, 0, id);
  }

  /** What the arms of the source's match accept, and why they refuse: a field, option or person outside the archive, or a value of the wrong kind. */
  lemma CheckCustomIs(c: CustomFilter, s: Scope)
    ensures CheckCustom(c, s) == None <==> CustomOk(c, s)
    ensures CheckCustom(c, s) == Some(Outside) <==>
      || (forall kind :: !Typed(s, c.field, kind))
      || (c.operator.Equals? && !CustomOk(c, s) && (exists kind, id :: Typed(s, c.field, kind) && (HasOptions(kind) || IsPeople(kind)) && Writes(c.operator.value, id)))
  {
    hide TypeOf, Typed, Parse;
    TypeIs(s, c.field);
    var t := TypeOf(s.fields, s.collection, c.field);
    if t.Some? {
      assert Typed(s, c.field, t.value);
      assert forall kind :: Typed(s, c.field, kind) <==> kind == t.value;
      if c.operator.Equals? {
        ValueIs(t.value, c, s);
      }
    }
  }

  lemma ValueIs(kind: FieldType, c: CustomFilter, s: Scope)
    requires TypeOf(s.fields, s.collection, c.field) == Some(kind) && c.operator.Equals?
    ensures CheckCustom(c, s) == None <==> ValueOk(kind, c.operator.value, c.field, s)
    ensures CheckCustom(c, s) == Some(Outside) <==>
      (HasOptions(kind) || IsPeople(kind)) && (exists id :: Writes(c.operator.value, id)) && !ValueOk(kind, c.operator.value, c.field, s)
  {
    hide TypeOf, Parse;
    if c.operator.value.TextValue? && UuidText(c.operator.value.raw).Some? {
      assert Writes(c.operator.value, UuidText(c.operator.value.raw).value);
    }
  }

  lemma CheckSortIs(x: Sort, s: Scope)
    ensures CheckSort(x, s) == None <==> SortOk(x, s)
  {
    hide TypeOf, Typed;
    if x.field.ByField? {
      TypeIs(s, x.field.id);
    }
  }

  /** The filters and orders the source refuses for documents. */
  predicate TaskOnly(q: Query) {
    || q.taskType.Some? || q.status.Some? || q.assignee.Some? || q.priority.Some? || q.labelId.Some? || q.milestone.Some?
    || q.openOnly || q.dueBefore.Some?
    || exists i :: 0 <= i < |q.sort| && (q.sort[i].field.Priority? || q.sort[i].field.Due? || q.sort[i].field.Status?)
  }

  lemma TaskOnlyIs(q: Query)
    ensures TaskOnly(q) <==> !OverDocuments(q)
  {
  }

  /** The loops of the source; the first failing check decides the refusal. */
  method CheckViewQuery(q: Query, s: Scope) returns (refusal: Option<Refusal>)
    ensures refusal == None <==> Acceptable(q, s)
    ensures s.documents && !OverDocuments(q) ==> refusal == Some(Invalid)
    ensures forall i | 0 <= i < |q.custom| && !(s.documents && !OverDocuments(q)) && !CustomOk(q.custom[i], s)
              && (forall j | 0 <= j < i :: CustomOk(q.custom[j], s)) :: refusal == CheckCustom(q.custom[i], s)
  {
    hide TypeOf, CheckCustom, CheckSort, CustomOk, SortOk, TaskOnly, OverDocuments;
    TaskOnlyIs(q);
    if s.documents && TaskOnly(q) {
      return Some(Invalid);
    }
    for i := 0 to |q.custom|
      invariant forall j | 0 <= j < i :: CustomOk(q.custom[j], s)
    {
      var r := CheckCustom(q.custom[i], s);
      CheckCustomIs(q.custom[i], s);
      if r.Some? {
        return r;
      }
    }
    for i := 0 to |q.sort|
      invariant forall j | 0 <= j < i :: SortOk(q.sort[j], s)
    {
      var r := CheckSort(q.sort[i], s);
      CheckSortIs(q.sort[i], s);
      if r.Some? {
        return r;
      }
    }
    if (q.status.Some? && q.status.value !in s.statuses) || (q.labelId.Some? && q.labelId.value !in s.labels)
       || (q.milestone.Some? && q.milestone.value !in s.milestones)
       || (q.assignee.Some? && q.assignee.value.Person? && q.assignee.value.id != s.actor) {
      return Some(Outside);
    }
    return None;
  }

  // ---------------------------------------------------------------- the remapping

  /** The fields whose custom values are people: the caller's set for the query's collection. */
  predicate PeopleField(fields: seq<Field>, collection: Option<Uuid>, id: Uuid) {
    exists f :: f in fields && f.id == id && collection == Some(f.collection) && f.kind.Some? && IsPeople(f.kind.value)
  }

  function MappedCustom(c: CustomFilter, people: bool, source: Uuid, destination: Uuid): CustomFilter {
    if people && c.operator.Equals? && c.operator.value.TextValue? && Parse(c.operator.value.raw) == Some(source)
    then CustomFilter(c.field, Equals(TextValue(ToString(destination))))
    else c
  }

  function MappedCustoms(custom: seq<CustomFilter>, s: Scope, destination: Uuid): (r: seq<CustomFilter>)
    ensures |r| == |custom|
    ensures forall i | 0 <= i < |custom| ::
              r[i] == MappedCustom(custom[i], PeopleField(s.fields, s.collection, custom[i].field), s.actor, destination)
  {
    seq(|custom|, i requires 0 <= i < |custom| =>
      MappedCustom(custom[i], PeopleField(s.fields, s.collection, custom[i].field), s.actor, destination))
  }

  function MappedQuery(q: Query, s: Scope, destination: Uuid): Query {
    q.(assignee := if q.assignee == Some(Person(s.actor)) then Some(Person(destination)) else q.assignee,
       custom := MappedCustoms(q.custom, s, destination))
  }

  /** `mapped_view_query`: edits a clone in place. */
  method MapViewQuery(q: Query, s: Scope, destination: Uuid) returns (r: Query)
    ensures r == MappedQuery(q, s, destination)
  {
    hide PeopleField, Parse, ToString;
    r := q;
    if r.assignee == Some(Person(s.actor)) {
      r := r.(assignee := Some(Person(destination)));
    }
    var custom := q.custom;
    for i := 0 to |custom|
      invariant |custom| == |q.custom|
      invariant forall j | 0 <= j < i ::
                  custom[j] == MappedCustom(q.custom[j], PeopleField(s.fields, s.collection, q.custom[j].field), s.actor, destination)
      invariant forall j | i <= j < |custom| :: custom[j] == q.custom[j]
    {
      var c := custom[i];
      if !PeopleField(s.fields, s.collection, c.field) {
        continue;
      }
      if c.operator.Equals? && c.operator.value.TextValue? {
        if Parse(c.operator.value.raw) == Some(s.actor) {
          custom := custom[i := CustomFilter(c.field, Equals(TextValue(ToString(destination))))];
        }
      }
    }
    assert custom == MappedCustoms(q.custom, s, destination);
    r := r.(custom := custom);
  }

  // ---------------------------------------------------------------- what the two promise together

  ghost predicate UniqueFields(fields: seq<Field>) {
    forall i, j | 0 <= i < j < |fields| :: fields[i].id != fields[j].id
  }

  function Retarget(s: Scope, destination: Uuid): Scope {
    s.(actor := destination)
  }

  /** With unique field ids the people set and the field's type agree. */
  lemma {:induction false} PeopleAgree(fields: seq<Field>, collection: Option<Uuid>, id: Uuid)
    requires UniqueFields(fields)
    ensures PeopleField(fields, collection, id) <==>
            TypeOf(fields, collection, id).Some? && IsPeople(TypeOf(fields, collection, id).value)
  {
    if fields != [] {
      PeopleAgree(fields[1..], collection, id);
      var first := fields[0];
      if PeopleField(fields, collection, id) {
        var f :| f in fields && f.id == id && collection == Some(f.collection) && f.kind.Some? && IsPeople(f.kind.value);
        var i :| 0 <= i < |fields| && fields[i] == f;
        if i > 0 {
          assert fields[1..][i - 1] == f;
        }
      }
      if PeopleField(fields[1..], collection, id) {
        var f :| f in fields[1..] && f.id == id && collection == Some(f.collection) && f.kind.Some? && IsPeople(f.kind.value);
        var i :| 0 <= i < |fields[1..]| && fields[1..][i] == f;
        assert fields[i + 1] == f;
      }
      if first.id == id && collection == Some(first.collection) && first.kind.Some? && IsPeople(first.kind.value) {
        assert first in fields;
      }
    }
  }

  lemma MappedCustomOk(c: CustomFilter, s: Scope, destination: Uuid)
    requires UniqueFields(s.fields) && CheckCustom(c, s) == None
    ensures CheckCustom(MappedCustom(c, PeopleField(s.fields, s.collection, c.field), s.actor, destination), Retarget(s, destination)) == None
  {
    hide TypeOf, PeopleField, Parse, ToString, UniqueFields;
    PeopleAgree(s.fields, s.collection, c.field);
    ParseToString(destination);
  }

  lemma SortKept(x: Sort, s: Scope, destination: Uuid)
    requires SortOk(x, s)
    ensures SortOk(x, Retarget(s, destination))
  {
    hide TypeOf, SortOk;
    CheckSortIs(x, s);
    CheckSortIs(x, Retarget(s, destination));
  }

  /** An acceptable query stays acceptable when it is re-checked against the destination actor. */
  lemma MappedQueryAcceptable(q: Query, s: Scope, destination: Uuid)
    requires UniqueFields(s.fields) && Acceptable(q, s)
    ensures Acceptable(MappedQuery(q, s, destination), Retarget(s, destination))
  {
    hide CheckCustom, CustomOk, SortOk, PeopleField, MappedCustom, UniqueFields, TypeOf;
    var m := MappedQuery(q, s, destination);
    forall i | 0 <= i < |m.custom|
      ensures CustomOk(m.custom[i], Retarget(s, destination))
    {
      assert CustomOk(q.custom[i], s);
      CheckCustomIs(q.custom[i], s);
      MappedCustomOk(q.custom[i], s, destination);
      CheckCustomIs(m.custom[i], Retarget(s, destination));
    }
    forall i | 0 <= i < |m.sort|
      ensures SortOk(m.sort[i], Retarget(s, destination))
    {
      assert SortOk(q.sort[i], s);
      SortKept(q.sort[i], s, destination);
    }
  }

  /** Only the assignee and people values that name the actor differ. */
  lemma MappedQueryKeepsRest(q: Query, s: Scope, destination: Uuid)
    ensures var m := MappedQuery(q, s, destination);
            && m == q.(assignee := m.assignee, custom := m.custom) && |m.custom| == |q.custom|
            && (m.assignee == q.assignee || q.assignee == Some(Person(s.actor)))
            && forall i | 0 <= i < |q.custom| ::
                 && m.custom[i].field == q.custom[i].field
                 && (m.custom[i] == q.custom[i]
                     || (PeopleField(s.fields, s.collection, q.custom[i].field) && q.custom[i].operator.Equals?
                         && q.custom[i].operator.value.TextValue? && Parse(q.custom[i].operator.value.raw) == Some(s.actor)))
  {
    hide PeopleField, Parse, ToString;
  }

  /** The same filter, or one people value for another that spells the same identity. */
  ghost predicate SameCustom(a: CustomFilter, b: CustomFilter) {
    || a == b
    || (&& a.field == b.field && a.operator.Equals? && b.operator.Equals? && a.operator.value.TextValue? && b.operator.value.TextValue?
        && Parse(a.operator.value.raw).Some? && Parse(a.operator.value.raw) == Parse(b.operator.value.raw))
  }

  /** The same query up to the spelling of people values. */
  ghost predicate SameQuery(a: Query, b: Query) {
    b == a.(custom := b.custom) && |a.custom| == |b.custom| && forall i | 0 <= i < |a.custom| :: SameCustom(a.custom[i], b.custom[i])
  }

  /** Naming the actor anew changes spellings and nothing else. */
  lemma RespelledQuery(q: Query, s: Scope)
    ensures SameQuery(q, MappedQuery(q, s, s.actor))
  {
    hide PeopleField, Parse, ToString;
    ParseToString(s.actor);
  }

  /** Mapping back gives the original with the actor's people values in their printed spelling, and so the original up to spelling. */
  lemma MappedQueryBack(q: Query, s: Scope, destination: Uuid)
    requires UniqueFields(s.fields) && Acceptable(q, s)
    ensures MappedQuery(MappedQuery(q, s, destination), Retarget(s, destination), s.actor) == MappedQuery(q, s, s.actor)
    ensures SameQuery(q, MappedQuery(MappedQuery(q, s, destination), Retarget(s, destination), s.actor))
  {
    hide PeopleField, MappedCustom, CheckCustom, CustomOk, SortOk, UniqueFields, SameQuery;
    RespelledQuery(q, s);
    var there := MappedCustoms(q.custom, s, destination);
    var back, canonical := MappedCustoms(there, Retarget(s, destination), s.actor), MappedCustoms(q.custom, s, s.actor);
    forall i | 0 <= i < |back|
      ensures back[i] == canonical[i]
    {
      assert CustomOk(q.custom[i], s);
      CheckCustomIs(q.custom[i], s);
      MappedCustomBack(q.custom[i], s, destination);
    }
    assert back == canonical;
  }

  /** An equality with a text that spells `person`. */
  predicate Spells(c: CustomFilter, person: Uuid) {
    c.operator.Equals? && c.operator.value.TextValue? && Parse(c.operator.value.raw) == Some(person)
  }

  lemma MappedCustomIs(c: CustomFilter, people: bool, source: Uuid, destination: Uuid)
    ensures MappedCustom(c, people, source, destination)
         == if people && Spells(c, source) then CustomFilter(c.field, Equals(TextValue(ToString(destination)))) else c
    ensures Spells(CustomFilter(c.field, Equals(TextValue(ToString(destination)))), destination)
  {
    hide Parse, ToString;
    ParseToString(destination);
  }

  /** An accepted people value names the actor. */
  lemma PeopleNameActor(c: CustomFilter, s: Scope, person: Uuid)
    requires UniqueFields(s.fields) && CheckCustom(c, s) == None && PeopleField(s.fields, s.collection, c.field) && Spells(c, person)
    ensures person == s.actor
  {
    hide TypeOf, PeopleField, Parse, UniqueFields;
    PeopleAgree(s.fields, s.collection, c.field);
  }

  lemma MappedCustomBack(c: CustomFilter, s: Scope, destination: Uuid)
    requires UniqueFields(s.fields) && CheckCustom(c, s) == None
    ensures var people := PeopleField(s.fields, s.collection, c.field);
            && MappedCustom(c, people, s.actor, destination).field == c.field
            && MappedCustom(MappedCustom(c, people, s.actor, destination), people, destination, s.actor) == MappedCustom(c, people, s.actor, s.actor)
  {
    hide MappedCustom, PeopleField, CheckCustom, UniqueFields, ToString, Spells;
    var people := PeopleField(s.fields, s.collection, c.field);
    var there := MappedCustom(c, people, s.actor, destination);
    MappedCustomIs(c, people, s.actor, destination);
    MappedCustomIs(c, people, s.actor, s.actor);
    MappedCustomIs(there, people, destination, s.actor);
    if people && Spells(c, destination) {
      PeopleNameActor(c, s, destination);
    }
  }
}
