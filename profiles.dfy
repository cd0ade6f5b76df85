/** as1_to_profile (granary/bluesky.py:291-311): an AS1 actor becomes an
    app.bsky.actor.profile record, by way of from_as1's profileView. */
module Profiles {
  import opened Json
  import opened Errors
  import opened Helpers
  import opened Lexicon
  import opened Forward
  import opened ForwardProperties

  /** The profileView fields a profile record does not have, in the order they are popped. */
  const DroppedFields: seq<string> := ["did", "handle", "indexedAt", "labels", "viewer"]

  /** The actor's objectType names an actor type. */
  predicate IsActorType(env: Env, typ: Json) {
    typ.JStr? && typ.s in env.actorTypes
  }

  /** as1_to_profile: the actor converted by from_as1, which must be a profileView, retyped
      as a profile and without the fields a profile does not have; everything else is
      from_as1's output unchanged. */
  function Profile(env: Env, actor: Json): (r: Result<map<string, Json>>)
    requires ValidEnv(env)
    ensures r.Ok? ==> actor.JObj? && IsActorType(env, Get(actor.fields, "objectType"))
    ensures r.Ok? ==> "$type" in r.value && r.value["$type"] == JStr(ProfileType)
    ensures r.Ok? ==> forall k :: k in DroppedFields ==> k !in r.value
  {
    if !actor.JObj? then Err(AttributeError)
    else
      var typ := Get(actor.fields, "objectType");
      if !IsActorType(env, typ) then Err(ValueError(NotActorType(typ)))
      else
        var profile :- FromAs1(env, actor);
        if profile["$type"] != JStr(ProfileViewType) then Err(AssertionError)
        else
          Ok(Retained(profile["$type" := JStr(ProfileType)]))
  }

  /** as1_to_profile itself, popping the dropped fields one at a time. */
  method As1ToProfile(env: Env, actor: Json) returns (r: Result<map<string, Json>>)
    requires ValidEnv(env)
    ensures r == Profile(env, actor)
  {
    if !actor.JObj? {
      return Err(AttributeError);
    }
    var typ := Get(actor.fields, "objectType");
    if !IsActorType(env, typ) {
      return Err(ValueError(NotActorType(typ)));
    }
    var converted := FromAs1(env, actor);
    if converted.Err? {
      return Err(converted.error);
    }
    var profile := converted.value;
    if profile["$type"] != JStr(ProfileViewType) {
      return Err(AssertionError);
    }
    profile := PopFields(profile["$type" := JStr(ProfileType)]);
    return Ok(profile);
  }

  /** The fields of a profile record, as the profileView holds them. */
  function Retained(view: map<string, Json>): map<string, Json> {
    view - (set k | k in DroppedFields)
  }

  /** The pop loop: `profile.pop(field, None)` for each dropped field. */
  method PopFields(view: map<string, Json>) returns (profile: map<string, Json>)
    ensures profile == Retained(view)
  {
    profile := view;
    var i := 0;
    while i < |DroppedFields|
      invariant 0 <= i <= |DroppedFields|
      invariant forall k :: k in profile <==> k in view && k !in DroppedFields[..i]
      invariant forall k :: k in profile ==> profile[k] == view[k]
    {
      assert DroppedFields[..i + 1] == DroppedFields[..i] + [DroppedFields[i]];
      profile := profile - {DroppedFields[i]};
      i := i + 1;
    }
    assert DroppedFields[..i] == DroppedFields;
  }

  /** A profile is from_as1's profileView of the actor: every field other than '$type' and
      the dropped ones is the view's, present exactly when the view has it. */
  lemma ProfileIsView(env: Env, actor: Json)
    requires ValidEnv(env) && Profile(env, actor).Ok?
    ensures var r := Profile(env, actor).value;
      var view := FromAs1(env, actor);
      && view.Ok? && view.value["$type"] == JStr(ProfileViewType)
      && forall k :: k != "$type" && k !in DroppedFields ==>
           (k in r <==> k in view.value) && (k in r ==> r[k] == view.value[k])
  {
    var view := FromAs1(env, actor).value;
    RetainedKeeps(view["$type" := JStr(ProfileType)]);
  }

  /** Retaining drops exactly the dropped fields. */
  lemma RetainedKeeps(view: map<string, Json>)
    ensures forall k :: k !in DroppedFields ==>
      (k in Retained(view) <==> k in view) && (k in Retained(view) ==> Retained(view)[k] == view[k])
  {
  }

  /** as1_to_profile raises AttributeError for a value that is not a dict, ValueError
      naming the objectType when that is not an actor type, from_as1's own error when
      from_as1 fails, and AssertionError when from_as1 gives something other than a
      profileView. */
  lemma ProfileErrors(env: Env, actor: Json)
    requires ValidEnv(env)
    ensures !actor.JObj? ==> Profile(env, actor) == Err(AttributeError)
    ensures actor.JObj? && !IsActorType(env, Get(actor.fields, "objectType")) ==>
      Profile(env, actor) == Err(ValueError(NotActorType(Get(actor.fields, "objectType"))))
    ensures actor.JObj? && IsActorType(env, Get(actor.fields, "objectType")) && FromAs1(env, actor).Err? ==>
      Profile(env, actor) == Err(FromAs1(env, actor).error)
    ensures actor.JObj? && IsActorType(env, Get(actor.fields, "objectType")) && FromAs1(env, actor).Ok? ==>
      (Profile(env, actor).Err? <==> FromAs1(env, actor).value["$type"] != JStr(ProfileViewType))
  {
  }

  /** A person whose converted object is itself never fails the assert: from_as1 either
      fails or gives a profileView, so as1_to_profile either passes on from_as1's error or
      succeeds. */
  lemma PersonPassesAssert(env: Env, actor: Json)
    requires ValidEnv(env) && Converts(actor) && CaseOf(actor) == PersonBranch
    requires IsActorType(env, Get(actor.fields, "objectType"))
    ensures Profile(env, actor).Ok? <==> FromAs1(env, actor).Ok?
    ensures Profile(env, actor).Err? ==> Profile(env, actor).error == FromAs1(env, actor).error
  {
    if FromAs1(env, actor).Ok? {
      BranchType(env, actor);
    }
  }
}
