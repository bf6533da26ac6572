/** JSON values as the archive stores them. */
module Json {
  import opened Options
  import opened Uuids

  datatype Json =
    | Null
    | Bool(b: bool)
    | Number(digits: string)
    | Str(s: string)
    | Arr(items: seq<Json>)
    | Obj(fields: map<string, Json>)

  /** `Value::get` with a key. */
  function Get(v: Json, key: string): Option<Json> {
    if v.Obj? && key in v.fields then Some(v.fields[key]) else None
  }

  /** The identity a value spells, in any accepted spelling. */
  function AsUuid(v: Json): Option<Uuid> {
    if v.Str? then Parse(v.s) else None
  }

  function IdOf(v: Json): Option<Uuid> {
    match Get(v, "id")
    case None => None
    case Some(id) => AsUuid(id)
  }

  function UuidJson(u: Uuid): Json {
    Str(ToString(u))
  }

  lemma UuidJsonIs(u: Uuid)
    ensures AsUuid(UuidJson(u)) == Some(u)
  {
    ParseToString(u);
  }

  /** The same value but for the spelling of identities: one UUID string for another that names the same identity. */
  ghost predicate SameSpelled(a: Json, b: Json)
    decreases a
  {
    || a == b
    || (AsUuid(a).Some? && AsUuid(a) == AsUuid(b))
    || (a.Arr? && b.Arr? && |a.items| == |b.items| && forall i | 0 <= i < |a.items| :: SameSpelled(a.items[i], b.items[i]))
    || (a.Obj? && b.Obj? && a.fields.Keys == b.fields.Keys && forall k | k in a.fields :: SameSpelled(a.fields[k], b.fields[k]))
  }
}
