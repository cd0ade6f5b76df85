/** from_as1 (granary/bluesky.py:74-288): an AS1 object or activity becomes an app.bsky.*
    object. The person and post branches are built in ProfileViews and Posts; this module
    holds the dispatch, the repost and follow branches, the recursion into the inner
    object, the actor and the author, and the final trim_nulls. */
module Forward {
  import opened Json
  import opened Errors
  import opened Helpers
  import opened Lexicon
  import opened ProfileViews
  import opened Posts

  /** Keys trim_nulls keeps even when empty, because the lexicons require them. */
  const RequiredKeys: set<string> := {"createdAt", "description", "did", "handle", "text", "viewer"}

  /** The objectTypes the post branch accepts. */
  const PostObjectTypes: set<string> := {"article", "mention", "note", "comment"}

  predicate IsPostType(typ: Json) {
    typ.JStr? && typ.s in PostObjectTypes
  }

  /** The verb of an activity: its 'verb', or 'post'. */
  function Verb(activity: map<string, Json>): Json {
    Or(Get(activity, "verb"), JStr("post"))
  }

  /** The object converted: the activity's inner 'object' when that is truthy and the verb
      is 'post', otherwise the activity itself. */
  function Target(obj: map<string, Json>): Json {
    var inner := Get(obj, "object");
    if Truthy(inner) && Verb(obj) == JStr("post") then inner else JObj(obj)
  }

  /** The objectType of the converted object: its 'objectType', or 'note'. */
  function ObjectType(o: map<string, Json>): Json {
    Or(Get(o, "objectType"), JStr("note"))
  }

  /** The follow branch: the followed actor's id (or its url when the id is falsy) as the
      subject, and the object's published time, '' when absent, as createdAt. An activity
      without an actor fails the assert. */
  function FollowRecord(actor: map<string, Json>, o: map<string, Json>): (r: Result<map<string, Json>>)
    ensures r.Err? <==> actor == map[]
    ensures r.Err? ==> r.error == AssertionError
    ensures r.Ok? ==>
      && r.value.Keys == {"$type", "subject", "createdAt"}
      && r.value["$type"] == JStr(FollowType)
      && r.value["subject"] == (if Truthy(Get(actor, "id")) then actor["id"] else Get(actor, "url"))
      && r.value["createdAt"] == (if "published" in o then o["published"] else JStr(""))
  {
    if actor == map[] then Err(AssertionError)
    else Ok(map[
      "$type" := JStr(FollowType),
      "subject" := Or(Get(actor, "id"), Get(actor, "url")),
      "createdAt" := GetOr(o, "published", JStr(""))])
  }

  /** The repost reason added to the reposted object. */
  function RepostReason(reposter: map<string, Json>, now: string): Json {
    JObj(map["$type" := JStr(ReasonRepostType), "by" := JObj(reposter), "indexedAt" := JStr(now)])
  }

  /** A dict's member ranks below the dict; so does None taken from a non-empty dict. */
  lemma FieldRanksLower(m: map<string, Json>, k: string)
    requires m != map[]
    ensures Rank(Get(m, k)) < Rank(JObj(m))
  {
    NonEmptyObjectHeight(m);
    if k in m {
      FieldIsLower(m, k);
    }
  }

  /** The object converted ranks no higher than the activity. */
  lemma TargetRanksNoHigher(obj: map<string, Json>)
    ensures Rank(Target(obj)) <= Rank(JObj(obj))
  {
    if Target(obj) != JObj(obj) {
      FieldRanksLower(obj, "object");
    }
  }

  /** An actor or author that get_object finds ranks below the dict it came from; an empty
      one ranks below any non-empty dict. */
  lemma ObjectRanksLower(env: Env, m: map<string, Json>, k: string)
    requires ValidEnv(env) && (k == "actor" || k == "author")
    requires m != map[] || env.getObject(m, k) != map[]
    ensures Rank(JObj(env.getObject(m, k))) < Rank(JObj(m))
  {
    var g := env.getObject(m, k);
    if g == map[] {
      NonEmptyObjectHeight(m);
      assert Height(JObj(g)) == 1;
    }
  }

  /** The '$type's from_as1 produces. */
  const ProducedTypes: set<Json> := {JStr(ProfileViewType), JStr(FeedViewPostType), JStr(FollowType)}

  /** from_as1: the dict the branches build, trimmed, keeping the lexicons' required
      keys even when empty. Whatever succeeds is a profileView, a feedViewPost or a
      follow. */
  function FromAs1(env: Env, obj: Json): (r: Result<map<string, Json>>)
    requires ValidEnv(env)
    ensures r.Err? <==> Untrimmed(env, obj).Err?
    ensures r.Err? ==> r.error == Untrimmed(env, obj).error
    ensures r.Ok? ==> "$type" in r.value && r.value["$type"] in ProducedTypes
    decreases Rank(obj), 3
  {
    var ret :- Untrimmed(env, obj);
    KeepsString(env.trimNulls, ret, RequiredKeys, "$type");
    Ok(TrimObject(env.trimNulls, ret, RequiredKeys))
  }

  /** The dict from_as1 builds before trim_nulls, by branch: person, repost, follow, post,
      or ValueError naming the objectType and verb. A value that is not a dict, where a
      dict is needed, raises AttributeError. */
  function Untrimmed(env: Env, obj: Json): (r: Result<map<string, Json>>)
    requires ValidEnv(env)
    ensures r.Ok? ==> "$type" in r.value && r.value["$type"] in ProducedTypes
    decreases Rank(obj), 2
  {
    if !obj.JObj? then Err(AttributeError)
    else
      var activity := obj.fields;
      var verb := Verb(activity);
      var target := Target(activity);
      if !target.JObj? then Err(AttributeError)
      else
        var o := target.fields;
        var typ := ObjectType(o);
        if typ == JStr("person") then ProfileView(env, o)
        else if verb == JStr("share") then Repost(env, activity)
        else if verb == JStr("follow") then FollowRecord(env.getObject(activity, "actor"), o)
        else if verb == JStr("post") && IsPostType(typ) then Post(env, activity, o)
        else Err(ValueError(UnknownAs1Type(typ, verb)))
  }

  /** The repost branch: the reposted object converted, with a reason naming the
      converted actor. It keeps the reposted object's '$type'. */
  function Repost(env: Env, activity: map<string, Json>): (r: Result<map<string, Json>>)
    requires ValidEnv(env) && Verb(activity) == JStr("share")
    ensures r.Ok? ==> "$type" in r.value && r.value["$type"] in ProducedTypes
    decreases Rank(JObj(activity)), 0
  {
    FieldRanksLower(activity, "object");
    ObjectRanksLower(env, activity, "actor");
    var shared :- FromAs1(env, Get(activity, "object"));
    var reposter :- FromAs1(env, JObj(env.getObject(activity, "actor")));
    Ok(shared["reason" := RepostReason(reposter, env.now)])
  }

  /** The post branch: entities, embeds, the converted author as a profileViewBasic, and
      the feedViewPost around them. */
  function Post(env: Env, activity: map<string, Json>, o: map<string, Json>): (r: Result<map<string, Json>>)
    requires ValidEnv(env) && Target(activity) == JObj(o)
    ensures r.Ok? ==> "$type" in r.value && r.value["$type"] == JStr(FeedViewPostType)
    decreases Rank(JObj(activity)), 1
  {
    var entities :- Entities(env, env.getList(o, "tags"), Get(o, "content"), IsHtml(env, o));
    var embeds :- PostEmbeds(env.getList(o, "image"), entities);
    var authorView :- AuthorView(env, activity, o);
    Ok(FeedViewPost(env, o, PostText(env, o), entities, embeds, authorView))
  }

  /** The post's author: None when get_object finds none, otherwise the author converted
      and retyped as a profileViewBasic. */
  function AuthorView(env: Env, activity: map<string, Json>, o: map<string, Json>): (r: Result<Json>)
    requires ValidEnv(env) && Target(activity) == JObj(o)
    decreases Rank(JObj(activity)), 0
  {
    var author := env.getObject(o, "author");
    if author == map[] then Ok(JNull)
    else
      ObjectRanksLower(env, o, "author");
      TargetRanksNoHigher(activity);
      var a :- FromAs1(env, JObj(author));
      Ok(JObj(a["$type" := JStr(ProfileViewBasicType)]))
  }
}
