/** to_as1 (granary/bluesky.py:314-412): an app.bsky.* object becomes an AS1 object,
    by '$type': profile views become persons, posts notes or comments, post views and
    feed view posts the note with its author and image, reposts share activities, and
    follows follow activities. The result is trimmed with trim_nulls. */
module Reverse {
  import opened Json
  import opened Errors
  import opened Helpers
  import opened Lexicon
  import opened DidWeb
  import opened Posts

  /** A member of a non-empty dict, or the None `get` gives for a missing key, is lower
      than the dict. */
  lemma GetIsLower(m: map<string, Json>, k: string)
    requires m != map[]
    ensures Height(Get(m, k)) < Height(JObj(m))
  {
    NonEmptyObjectHeight(m);
    if k in m {
      FieldIsLower(m, k);
    }
  }

  /** The items a `for x in v` loop visits when its body starts with `x.get(...)`: a list's
      items. Iterating a non-empty string or dict yields strings, whose missing `.get`
      raises AttributeError at the first item; an empty one yields nothing; None, numbers
      and booleans are not iterable (TypeError). */
  function LoopItems(v: Json): (r: Result<seq<Json>>)
    ensures r.Ok? <==> v.JArr? || v == JStr("") || v == JObj(map[])
    ensures r.Ok? && v.JArr? ==> r.value == v.items
    ensures r.Ok? && !v.JArr? ==> r.value == []
    ensures r.Err? ==> r.error == (if v.JStr? || v.JObj? then AttributeError else TypeError)
  {
    match v
    case JArr(xs) => Ok(xs)
    case JStr(s) => if s == "" then Ok([]) else Err(AttributeError)
    case JObj(m) => if m == map[] then Ok([]) else Err(AttributeError)
    case _ => Err(TypeError)
  }

  /** Python ints, booleans included, which `-` accepts. */
  predicate IsNumber(j: Json) {
    j.JInt? || j.JBool?
  }

  function NumberValue(j: Json): int
    requires IsNumber(j)
  {
    if j.JInt? then j.i else if j.b then 1 else 0
  }

  /** A link facet: an entity whose 'type' is 'link'. */
  predicate IsLink(e: Json) {
    e.JObj? && Get(e.fields, "type") == JStr("link")
  }

  /** The tag for a link entity: its value as the url, its index's start (0 when absent),
      and the length from start to end. An index that is not a dict raises AttributeError;
      bounds that are not numbers make `end - start` raise TypeError. */
  function LinkTag(e: map<string, Json>): (r: Result<Json>)
    ensures r.Err? <==> (|| !Get(e, "index").JObj?
                         || !IsNumber(GetOr(Get(e, "index").fields, "start", JInt(0)))
                         || !IsNumber(GetOr(Get(e, "index").fields, "end", JInt(0))))
    ensures r.Err? ==> r.error == (if Get(e, "index").JObj? then TypeError else AttributeError)
    ensures r.Ok? ==> var index := Get(e, "index").fields;
      var start := GetOr(index, "start", JInt(0));
      && r.value.JObj? && r.value.fields.Keys == {"url", "startIndex", "length"}
      && r.value.fields["url"] == Get(e, "value")
      && r.value.fields["startIndex"] == start
      && r.value.fields["length"].JInt?
      && NumberValue(start) + r.value.fields["length"].i == NumberValue(GetOr(index, "end", JInt(0)))
  {
    var index := Get(e, "index");
    if !index.JObj? then Err(AttributeError)
    else
      var start := GetOr(index.fields, "start", JInt(0));
      var end := GetOr(index.fields, "end", JInt(0));
      if !IsNumber(start) || !IsNumber(end) then Err(TypeError)
      else Ok(JObj(map[
        "url" := Get(e, "value"),
        "startIndex" := start,
        "length" := JInt(NumberValue(end) - NumberValue(start))]))
  }

  /** The tags of a post: one per link entity, in order. An entity that is not a dict
      raises AttributeError. */
  function Tags(entities: seq<Json>): (r: Result<seq<Json>>)
    ensures r.Ok? ==> |r.value| <= |entities|
  {
    if entities == [] then Ok([])
    else if !entities[0].JObj? then Err(AttributeError)
    else if !IsLink(entities[0]) then Tags(entities[1..])
    else
      var tag :- LinkTag(entities[0].fields);
      var rest :- Tags(entities[1..]);
      Ok([tag] + rest)
  }

  lemma TagsUnfold(entities: seq<Json>)
    requires entities != [] && entities[0].JObj?
    ensures var e := entities[0];
      Tags(entities) ==
        if !IsLink(e) then Prepend([], Tags(entities[1..]))
        else if LinkTag(e.fields).Err? then Err(LinkTag(e.fields).error)
        else Prepend([LinkTag(e.fields).value], Tags(entities[1..]))
  {
    var rest := Tags(entities[1..]);
    if rest.Ok? {
      assert [] + rest.value == rest.value;
    }
  }

  /** The entity loop of the post branch, appending to `tags`. */
  method BuildTags(entities: seq<Json>) returns (r: Result<seq<Json>>)
    ensures r == Tags(entities)
  {
    var tags: seq<Json> := [];
    var i := 0;
    assert entities[0..] == entities;
    if Tags(entities).Ok? {
      assert [] + Tags(entities).value == Tags(entities).value;
    }
    while i < |entities|
      invariant 0 <= i <= |entities|
      invariant Tags(entities) == Prepend(tags, Tags(entities[i..]))
    {
      assert entities[i..][1..] == entities[i + 1..];
      var entity := entities[i];
      if !entity.JObj? {
        return Err(AttributeError);
      }
      TagsUnfold(entities[i..]);
      var found: seq<Json> := [];
      if IsLink(entity) {
        var tag := LinkTag(entity.fields);
        if tag.Err? {
          return Err(tag.error);
        }
        found := [tag.value];
      }
      PrependTwice(tags, found, Tags(entities[i + 1..]));
      tags := tags + found;
      i := i + 1;
    }
    assert entities[i..] == [];
    assert tags + [] == tags;
    return Ok(tags);
  }

  /** The did:web's URL, None without a did. A did that is not a string has no
      `startswith` (AttributeError); one did_web_to_url rejects raises its ValueError. */
  function DidUrl(u: Urllib, did: Json): (r: Result<Json>)
    ensures !Truthy(did) ==> r == Ok(JNull)
    ensures Truthy(did) && !did.JStr? ==> r == Err(AttributeError)
    ensures did.JStr? && did.s != "" ==> r.Ok? == DidWebToUrl(u, did.s).Ok?
    ensures r.Ok? && Truthy(did) ==> r.value == JStr(DidWebToUrl(u, did.s).value)
  {
    if !Truthy(did) then Ok(JNull)
    else if !did.JStr? then Err(AttributeError)
    else
      var url :- DidWebToUrl(u, did.s);
      Ok(JStr(url))
  }

  /** The person a profileView or profileViewBasic describes: the avatar, then the banner
      as a featured image when there is one, and the URL of the did. */
  function ActorToAs1(u: Urllib, m: map<string, Json>): (r: Result<Json>)
    ensures r.Ok? <==> DidUrl(u, Get(m, "did")).Ok?
    ensures r.Ok? ==> r.value.JObj? && var p := r.value.fields;
      && p.Keys == {"objectType", "displayName", "summary", "image", "url"}
      && p["objectType"] == JStr("person")
      && p["displayName"] == Get(m, "displayName") && p["summary"] == Get(m, "description")
      && p["url"] == DidUrl(u, Get(m, "did")).value
      && p["image"].JArr? && var images := p["image"].items;
      && |images| == (if Truthy(Get(m, "banner")) then 2 else 1)
      && images[0] == JObj(map["url" := Get(m, "avatar")])
      && (Truthy(Get(m, "banner")) ==>
            images[1] == JObj(map["url" := m["banner"], "objectType" := JStr("featured")]))
  {
    var avatar := JObj(map["url" := Get(m, "avatar")]);
    var banner := Get(m, "banner");
    var images := [avatar] + (if Truthy(banner) then [JObj(map["url" := banner, "objectType" := JStr("featured")])] else []);
    var url :- DidUrl(u, Get(m, "did"));
    Ok(JObj(map[
      "objectType" := JStr("person"),
      "displayName" := Get(m, "displayName"),
      "summary" := Get(m, "description"),
      "image" := JArr(images),
      "url" := url]))
  }

  /** The URL the post replies to: reply.parent.uri, where a missing reply or parent is an
      empty dict and one that is present but not a dict raises AttributeError. */
  function InReplyTo(m: map<string, Json>): (r: Result<Json>)
    ensures r.Err? ==> r.error == AttributeError
    ensures "reply" !in m ==> r == Ok(JNull)
  {
    var reply := GetOr(m, "reply", JObj(map[]));
    if !reply.JObj? then Err(AttributeError)
    else
      var parent := GetOr(reply.fields, "parent", JObj(map[]));
      if !parent.JObj? then Err(AttributeError)
      else Ok(Get(parent.fields, "uri"))
  }

  /** A post record as a note, or a comment when it replies to something, with its text
      as content, its createdAt ('' when absent) as published, and one tag per link entity.
      It fails when the entities cannot be iterated, a tag cannot be built, or the reply
      reference is malformed. */
  function PostToAs1(m: map<string, Json>): (r: Result<Json>)
    ensures var items := LoopItems(GetOr(m, "entities", JArr([])));
      r.Ok? <==> items.Ok? && Tags(items.value).Ok? && InReplyTo(m).Ok?
    ensures r.Ok? ==> r.value.JObj? && var n := r.value.fields;
      && n.Keys == {"objectType", "content", "inReplyTo", "published", "tags"}
      && InReplyTo(m).Ok?
      && (n["objectType"] == JStr("comment") <==> Truthy(InReplyTo(m).value))
      && (n["objectType"] == JStr("note") <==> !Truthy(InReplyTo(m).value))
      && n["inReplyTo"] == JArr([JObj(map["url" := InReplyTo(m).value])])
      && n["content"] == GetOr(m, "text", JStr(""))
      && n["published"] == (if "createdAt" in m then m["createdAt"] else JStr(""))
      && n["tags"] == JArr(Tags(LoopItems(GetOr(m, "entities", JArr([]))).value).value)
  {
    var items :- LoopItems(GetOr(m, "entities", JArr([])));
    var tags :- Tags(items);
    var inReplyTo :- InReplyTo(m);
    Ok(JObj(map[
      "objectType" := JStr(if Truthy(inReplyTo) then "comment" else "note"),
      "content" := GetOr(m, "text", JStr("")),
      "inReplyTo" := JArr([JObj(map["url" := inReplyTo])]),
      "published" := GetOr(m, "createdAt", JStr("")),
      "tags" := JArr(tags)]))
  }

  /** The presented images: each image's fullsize URL and alt text. An image that is not a
      dict raises AttributeError. */
  function PresentedImages(images: seq<Json>): (r: Result<seq<Json>>)
    ensures r.Err? <==> !AllObjects(images)
    ensures r.Err? ==> r.error == AttributeError
    ensures r.Ok? ==> |r.value| == |images| && forall i :: 0 <= i < |images| ==>
      r.value[i] == JObj(map["url" := Get(images[i].fields, "fullsize"), "displayName" := Get(images[i].fields, "alt")])
  {
    if images == [] then Ok([])
    else if !images[0].JObj? then Err(AttributeError)
    else
      var img := images[0].fields;
      var rest :- PresentedImages(images[1..]);
      Ok([JObj(map["url" := Get(img, "fullsize"), "displayName" := Get(img, "alt")])] + rest)
  }

  /** A follow record as a follow activity whose actor is the followed subject. */
  function FollowToAs1(m: map<string, Json>): Json {
    JObj(map[
      "objectType" := JStr("activity"),
      "verb" := JStr("follow"),
      "actor" := JObj(map["url" := Get(m, "subject")])])
  }

  /** to_as1: a falsy value becomes an empty dict; a truthy value that is not a dict raises
      AttributeError; a dict is converted by its '$type' and the result trimmed. */
  function ToAs1(env: Env, obj: Json): (r: Result<Json>)
    ensures !Truthy(obj) ==> r == Ok(JObj(map[]))
    ensures Truthy(obj) && !obj.JObj? ==> r == Err(AttributeError)
    ensures Truthy(obj) && obj.JObj? ==> r.Err? == Converted(env, obj.fields).Err?
    decreases Height(obj), 2
  {
    if !Truthy(obj) then Ok(JObj(map[]))
    else if !obj.JObj? then Err(AttributeError)
    else
      var ret :- Converted(env, obj.fields);
      Ok(env.trimNulls(ret, {}))
  }

  /** The '$type's to_as1 converts. */
  const ConvertedTypes: set<Json> := {
    JStr(ProfileViewType), JStr(ProfileViewBasicType), JStr(PostType), JStr(PostViewType),
    JStr(ImagesPresentedType), JStr(FeedViewPostType), JStr(FollowType)}

  /** The AS1 value before trim_nulls, by '$type'. A missing or empty '$type' and one
      outside the converted types raise ValueError. */
  function Converted(env: Env, m: map<string, Json>): (r: Result<Json>)
    requires m != map[]
    ensures !Truthy(Get(m, "$type")) ==> r == Err(ValueError(MissingBskyType))
    ensures Truthy(Get(m, "$type")) && Get(m, "$type") !in ConvertedTypes ==>
      r == Err(ValueError(UnknownBskyType(Get(m, "$type"))))
    decreases Height(JObj(m)), 1
  {
    var typ := Get(m, "$type");
    if !Truthy(typ) then Err(ValueError(MissingBskyType))
    else if typ == JStr(ProfileViewType) || typ == JStr(ProfileViewBasicType) then ActorToAs1(env.urllib, m)
    else if typ == JStr(PostType) then PostToAs1(m)
    else if typ == JStr(PostViewType) then PostViewToAs1(env, m)
    else if typ == JStr(ImagesPresentedType) then
      var images :- LoopItems(GetOr(m, "images", JArr([])));
      var shown :- PresentedImages(images);
      Ok(JArr(shown))
    else if typ == JStr(FeedViewPostType) then FeedViewPostToAs1(env, m)
    else if typ == JStr(FollowType) then Ok(FollowToAs1(m))
    else Err(ValueError(UnknownBskyType(typ)))
  }

  /** A postView: its record converted, which must be a dict to be updated, with the
      post's URL, its author converted and its embed converted as the image. */
  function PostViewToAs1(env: Env, m: map<string, Json>): (r: Result<Json>)
    requires m != map[]
    ensures r.Ok? ==> r.value.JObj? && var p := r.value.fields;
      && "url" in p && p["url"] == Get(m, "uri")
      && "author" in p && "image" in p
    decreases Height(JObj(m)), 0
  {
    GetIsLower(m, "record");
    GetIsLower(m, "author");
    GetIsLower(m, "embed");
    var rec :- ToAs1(env, Get(m, "record"));
    if !rec.JObj? then Err(AttributeError)
    else
      var author :- ToAs1(env, Get(m, "author"));
      var image :- ToAs1(env, Get(m, "embed"));
      Ok(JObj(rec.fields + map["url" := Get(m, "uri"), "author" := author, "image" := image]))
  }

  /** The feedViewPost's reason is a repost. */
  predicate IsRepost(m: map<string, Json>) {
    var reason := Get(m, "reason");
    reason.JObj? && reason.fields != map[] && Get(reason.fields, "$type") == JStr(ReasonRepostType)
  }

  /** A feedViewPost: its post converted, or, when its reason is a repost, a share
      activity whose object is the converted post and whose actor is the converted
      reposter. A truthy reason that is not a dict raises AttributeError. */
  function FeedViewPostToAs1(env: Env, m: map<string, Json>): (r: Result<Json>)
    requires m != map[]
    ensures r.Ok? && IsRepost(m) ==> r.value.JObj? && var a := r.value.fields;
      && a.Keys == {"objectType", "verb", "object", "actor"}
      && a["objectType"] == JStr("activity") && a["verb"] == JStr("share")
    decreases Height(JObj(m)), 0
  {
    GetIsLower(m, "post");
    var post :- ToAs1(env, Get(m, "post"));
    var reason := Get(m, "reason");
    if !Truthy(reason) then Ok(post)
    else if !reason.JObj? then Err(AttributeError)
    else if Get(reason.fields, "$type") != JStr(ReasonRepostType) then Ok(post)
    else
      GetIsLower(m, "reason");
      GetIsLower(reason.fields, "by");
      var actor :- ToAs1(env, Get(reason.fields, "by"));
      Ok(JObj(map[
        "objectType" := JStr("activity"),
        "verb" := JStr("share"),
        "object" := post,
        "actor" := actor]))
  }
}
