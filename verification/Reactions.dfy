/** Comment reactions: `comment_reactions_supported` and `mapped_comment_reactions`. */
module Reactions {
  import opened Options
  import opened Uuids
  import opened Json

  const REACTIONS: seq<string> := ["\U{1F44D}", "\U{2764}\U{FE0F}", "\U{1F389}"]

  /** Product reactions, each by nobody or by the one actor. */
  predicate Supported(reactions: Json, actor: Uuid) {
    && reactions.Obj?
    && forall emoji | emoji in reactions.fields ::
         emoji in REACTIONS && IdsOk(reactions.fields[emoji], actor)
  }

  predicate IdsOk(ids: Json, actor: Uuid) {
    ids.Arr? && |ids.items| <= 1 && forall i | 0 <= i < |ids.items| :: AsUuid(ids.items[i]) == Some(actor)
  }

  /** What the check accepts: reactions of the product, each by nobody or by the actor, in any spelling. */
  lemma SupportedIs(reactions: Json, actor: Uuid)
    ensures Supported(reactions, actor) <==> reactions.Obj? && forall emoji | emoji in reactions.fields ::
      && emoji in {"\U{1F44D}", "\U{2764}\U{FE0F}", "\U{1F389}"}
      && (reactions.fields[emoji] == Arr([]) || exists id :: reactions.fields[emoji] == Arr([Str(id)]) && Spelling(id, actor))
  {
    hide Parse, Spelling;
    if reactions.Obj? {
      forall emoji | emoji in reactions.fields
        ensures IdsOk(reactions.fields[emoji], actor) <==>
          (reactions.fields[emoji] == Arr([]) || exists id :: reactions.fields[emoji] == Arr([Str(id)]) && Spelling(id, actor))
      {
        IdsAre(reactions.fields[emoji], actor);
      }
    }
  }

  lemma IdsAre(ids: Json, actor: Uuid)
    ensures IdsOk(ids, actor) <==> (ids == Arr([]) || exists id :: ids == Arr([Str(id)]) && Spelling(id, actor))
  {
    hide Parse, Spelling;
    if ids.Arr? && |ids.items| == 1 && ids.items[0].Str? {
      ParseIs(ids.items[0].s, actor);
      assert ids == Arr([Str(ids.items[0].s)]);
    }
  }

  function MappedId(id: Json, source: Uuid, destination: Uuid): Json {
    if AsUuid(id) == Some(source) then UuidJson(destination) else id
  }

  function MappedIds(ids: Json, source: Uuid, destination: Uuid): (r: Json)
    ensures ids.Arr? <==> r.Arr?
    ensures ids.Arr? ==> |r.items| == |ids.items| && forall i | 0 <= i < |ids.items| :: r.items[i] == MappedId(ids.items[i], source, destination)
  {
    if ids.Arr? then Arr(seq(|ids.items|, i requires 0 <= i < |ids.items| => MappedId(ids.items[i], source, destination))) else ids
  }

  function Mapped(reactions: Json, source: Uuid, destination: Uuid): Json {
    if reactions.Obj? then Obj(map emoji | emoji in reactions.fields :: MappedIds(reactions.fields[emoji], source, destination)) else reactions
  }

  /** `mapped_comment_reactions`: every id of every list of a clone, edited in place. */
  method MapCommentReactions(reactions: Json, source: Uuid, destination: Uuid) returns (r: Json)
    ensures r == Mapped(reactions, source, destination)
  {
    hide MappedId;
    if !reactions.Obj? {
      return reactions;
    }
    var fields := reactions.fields;
    var left := fields.Keys;
    while left != {}
      invariant left <= fields.Keys == reactions.fields.Keys
      invariant forall emoji | emoji in fields ::
        fields[emoji] == if emoji in left then reactions.fields[emoji] else MappedIds(reactions.fields[emoji], source, destination)
      decreases left
    {
      var emoji :| emoji in left;
      var ids := MapIds(fields[emoji], source, destination);
      fields := fields[emoji := ids];
      left := left - {emoji};
    }
    r := Obj(fields);
  }

  method MapIds(ids: Json, source: Uuid, destination: Uuid) returns (r: Json)
    ensures r == MappedIds(ids, source, destination)
  {
    hide MappedId;
    if !ids.Arr? {
      return ids;
    }
    var items := ids.items;
    for i := 0 to |items|
      invariant |items| == |ids.items|
      invariant forall k | 0 <= k < |items| :: items[k] == if k < i then MappedId(ids.items[k], source, destination) else ids.items[k]
    {
      items := items[i := MappedId(items[i], source, destination)];
    }
    r := Arr(items);
    assert r.items == MappedIds(ids, source, destination).items;
  }

  /** Supported reactions stay supported for the destination actor. */
  lemma MappedSupported(reactions: Json, source: Uuid, destination: Uuid)
    requires Supported(reactions, source)
    ensures Supported(Mapped(reactions, source, destination), destination)
  {
    hide Parse, ToString;
    UuidJsonIs(destination);
  }

  /** The same reactions with as many entries each; only entries that spelled the source actor differ. */
  lemma MappedOnlyActor(reactions: Json, source: Uuid, destination: Uuid)
    requires reactions.Obj?
    ensures var m := Mapped(reactions, source, destination);
            && m.fields.Keys == reactions.fields.Keys
            && forall emoji | emoji in reactions.fields && reactions.fields[emoji].Arr? ::
                 && m.fields[emoji].Arr? && |m.fields[emoji].items| == |reactions.fields[emoji].items|
                 && forall i | 0 <= i < |m.fields[emoji].items| ::
                      AsUuid(reactions.fields[emoji].items[i]) == Some(source) || m.fields[emoji].items[i] == reactions.fields[emoji].items[i]
  {
  }

  lemma {:induction false} RespelledIds(ids: Json, actor: Uuid)
    ensures SameSpelled(ids, MappedIds(ids, actor, actor))
  {
    hide Parse, ToString;
    UuidJsonIs(actor);
    if ids.Arr? {
      forall i | 0 <= i < |ids.items|
        ensures SameSpelled(ids.items[i], MappedIds(ids, actor, actor).items[i])
      {
      }
    }
  }

  /** Naming the actor anew changes spellings and nothing else. */
  lemma {:induction false} RespelledReactions(reactions: Json, actor: Uuid)
    ensures SameSpelled(reactions, Mapped(reactions, actor, actor))
  {
    hide MappedIds;
    if reactions.Obj? {
      forall emoji | emoji in reactions.fields
        ensures SameSpelled(reactions.fields[emoji], Mapped(reactions, actor, actor).fields[emoji])
      {
        RespelledIds(reactions.fields[emoji], actor);
      }
    }
  }

  /** Mapping back gives the original with the actor in its printed spelling, and so the original up to spelling. */
  lemma {:induction false} MappedBack(reactions: Json, source: Uuid, destination: Uuid)
    requires Supported(reactions, source)
    ensures Mapped(Mapped(reactions, source, destination), destination, source) == Mapped(reactions, source, source)
    ensures SameSpelled(reactions, Mapped(Mapped(reactions, source, destination), destination, source))
  {
    hide Parse, ToString, SameSpelled;
    RespelledReactions(reactions, source);
    UuidJsonIs(destination);
    var there := Mapped(reactions, source, destination);
    var back, canonical := Mapped(there, destination, source), Mapped(reactions, source, source);
    forall emoji | emoji in reactions.fields
      ensures back.fields[emoji] == canonical.fields[emoji]
    {
      assert IdsOk(reactions.fields[emoji], source);
      assert back.fields[emoji].items == canonical.fields[emoji].items;
    }
    assert back.fields == canonical.fields;
  }
}
