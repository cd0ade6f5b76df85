/** What to_as1 promises about its output, and how it undoes from_as1: follows and
    profiles come back to the actor and URL they were made from; link embeds do not come
    back at all. */
module ReverseProperties {
  import opened Json
  import opened Errors
  import opened Helpers
  import opened Lexicon
  import opened DidWeb
  import opened ProfileViews
  import opened Posts
  import opened Forward
  import opened ForwardProperties
  import opened PostProperties
  import opened Reverse

  /** trim_nulls keeps a member that is non-empty and that trimming leaves alone. */
  lemma KeepsFixed(t: (Json, set<string>) -> Json, m: map<string, Json>, keep: set<string>, k: string)
    requires TrimsNulls(t) && k in m && t(m[k], keep) == m[k] && !IsEmpty(m[k])
    ensures k in TrimObject(t, m, keep) && TrimObject(t, m, keep)[k] == m[k]
  {
  }

  /** An empty dict trims to itself. */
  lemma TrimEmpty(t: (Json, set<string>) -> Json, keep: set<string>)
    requires TrimsNulls(t)
    ensures t(JObj(map[]), keep) == JObj(map[])
  {
    TrimFixedObject(t, map[], keep);
  }

  /** to_as1's output is already trimmed: trimming it again changes nothing. */
  lemma ReverseIsTrimmed(env: Env, obj: Json)
    requires TrimsNulls(env.trimNulls) && ToAs1(env, obj).Ok?
    ensures env.trimNulls(ToAs1(env, obj).value, {}) == ToAs1(env, obj).value
  {
    if !Truthy(obj) {
      TrimEmpty(env.trimNulls, {});
    } else {
      TrimIdempotent(env.trimNulls, Converted(env, obj.fields).value, {});
    }
  }

  /** A dict without a '$type' raises ValueError, and so does one whose '$type' to_as1
      does not know, naming it. */
  lemma TypeErrors(env: Env, obj: Json)
    requires Truthy(obj) && obj.JObj?
    ensures !Truthy(Get(obj.fields, "$type")) ==> ToAs1(env, obj) == Err(ValueError(MissingBskyType))
    ensures Truthy(Get(obj.fields, "$type")) && Get(obj.fields, "$type") !in ConvertedTypes ==>
      ToAs1(env, obj) == Err(ValueError(UnknownBskyType(Get(obj.fields, "$type"))))
  {
  }

  /** The link entities, in order. */
  function Links(entities: seq<Json>): (r: seq<Json>)
    ensures |r| <= |entities|
    ensures forall i :: 0 <= i < |r| ==> IsLink(r[i])
  {
    if entities == [] then []
    else (if IsLink(entities[0]) then [entities[0]] else []) + Links(entities[1..])
  }

  /** A sequence of dicts is its head, a dict, followed by a sequence of dicts. */
  lemma AllObjectsCons(xs: seq<Json>)
    requires xs != []
    ensures AllObjects(xs) <==> xs[0].JObj? && AllObjects(xs[1..])
  {
    if xs[0].JObj? && AllObjects(xs[1..]) {
      forall i | 0 <= i < |xs|
        ensures xs[i].JObj?
      {
        if i > 0 {
          assert xs[i] == xs[1..][i - 1];
        }
      }
    }
  }

  /** Every item is a link whose tag succeeds. */
  predicate LinkTagsSucceed(links: seq<Json>) {
    forall i :: 0 <= i < |links| ==> IsLink(links[i]) && LinkTag(links[i].fields).Ok?
  }

  lemma LinkTagsCons(head: Json, links: seq<Json>)
    ensures LinkTagsSucceed([head] + links) <==>
      IsLink(head) && LinkTag(head.fields).Ok? && LinkTagsSucceed(links)
  {
    var all := [head] + links;
    assert all[0] == head;
    if IsLink(head) && LinkTag(head.fields).Ok? && LinkTagsSucceed(links) {
      forall i | 0 <= i < |all|
        ensures IsLink(all[i]) && LinkTag(all[i].fields).Ok?
      {
        if i > 0 {
          assert all[i] == links[i - 1];
        }
      }
    }
    if LinkTagsSucceed(all) {
      forall i | 0 <= i < |links|
        ensures IsLink(links[i]) && LinkTag(links[i].fields).Ok?
      {
        assert all[i + 1] == links[i];
      }
    }
  }

  /** A link's tag in front of tags that follow their links keeps them following. */
  lemma TagsFollowCons(head: Json, tag: Json, tags: seq<Json>, links: seq<Json>)
    requires IsLink(head) && LinkTag(head.fields) == Ok(tag)
    requires |tags| == |links|
    requires forall i :: 0 <= i < |links| ==> IsLink(links[i]) && LinkTag(links[i].fields) == Ok(tags[i])
    ensures var ls := [head] + links;
      forall i :: 0 <= i < |ls| ==> IsLink(ls[i]) && LinkTag(ls[i].fields) == Ok(([tag] + tags)[i])
  {
    var ls := [head] + links;
    forall i | 0 <= i < |ls|
      ensures IsLink(ls[i]) && LinkTag(ls[i].fields) == Ok(([tag] + tags)[i])
    {
      if i > 0 {
        assert ls[i] == links[i - 1] && ([tag] + tags)[i] == tags[i - 1];
      }
    }
  }

  /** The tags are exactly the link entities' tags, in order: they succeed exactly when
      every entity is a dict and every link's tag succeeds. */
  lemma {:induction false} TagsOfLinks(entities: seq<Json>)
    ensures Tags(entities).Ok? <==> AllObjects(entities) && LinkTagsSucceed(Links(entities))
    ensures Tags(entities).Ok? ==>
      && |Tags(entities).value| == |Links(entities)|
      && forall i :: 0 <= i < |Links(entities)| ==> LinkTag(Links(entities)[i].fields) == Ok(Tags(entities).value[i])
  {
    if entities != [] {
      var rest := entities[1..];
      TagsOfLinks(rest);
      AllObjectsCons(entities);
      var links := Links(entities);
      if IsLink(entities[0]) {
        assert links == [entities[0]] + Links(rest);
        LinkTagsCons(entities[0], Links(rest));
        if Tags(entities).Ok? {
          TagsFollowCons(entities[0], LinkTag(entities[0].fields).value, Tags(rest).value, Links(rest));
        }
      } else {
        assert links == Links(rest);
        if entities[0].JObj? {
          assert Tags(entities) == Tags(rest);
        }
      }
    }
  }

  /** A one-member dict whose value is a non-empty string trims to itself. */
  lemma TrimUrl(t: (Json, set<string>) -> Json, uri: Json)
    requires TrimsNulls(t)
    ensures uri.JStr? && uri.s != "" ==> t(JObj(map["url" := uri]), {}) == JObj(map["url" := uri])
    ensures uri == JNull ==> t(JObj(map["url" := uri]), {}) == JObj(map[])
  {
    var m := map["url" := uri];
    if uri.JStr? && uri.s != "" {
      TrimFixedObject(t, m, {});
    } else if uri == JNull {
      assert t(uri, {}) == JNull;
      assert TrimObject(t, m, {}).Keys == {};
    }
  }

  /** The trimmed inReplyTo list: the one-item list when the URL is a non-empty string,
      nothing when it is None. */
  lemma TrimInReplyTo(t: (Json, set<string>) -> Json, uri: Json)
    requires TrimsNulls(t)
    ensures var l := JArr([JObj(map["url" := uri])]);
      && (uri.JStr? && uri.s != "" ==> t(l, {}) == l)
      && (uri == JNull ==> t(l, {}) == JArr([]))
  {
    TrimUrl(t, uri);
    var xs := [JObj(map["url" := uri])];
    assert xs[1..] == [];
    assert KeptItems(t, [], {}) == [];
    if uri.JStr? && uri.s != "" {
      assert "url" in map["url" := uri];
      assert !IsEmpty(JObj(map["url" := uri]));
      assert KeptItems(t, xs, {}) == [JObj(map["url" := uri])] + [];
    }
  }

  /** Which function converts a non-empty dict, by '$type'. */
  lemma ConvertedBranch(env: Env, m: map<string, Json>)
    requires m != map[]
    ensures var typ := Get(m, "$type");
      && (typ == JStr(ProfileViewType) || typ == JStr(ProfileViewBasicType) ==> Converted(env, m) == ActorToAs1(env.urllib, m))
      && (typ == JStr(PostType) ==> Converted(env, m) == PostToAs1(m))
      && (typ == JStr(PostViewType) ==> Converted(env, m) == PostViewToAs1(env, m))
      && (typ == JStr(FeedViewPostType) ==> Converted(env, m) == FeedViewPostToAs1(env, m))
      && (typ == JStr(FollowType) ==> Converted(env, m) == Ok(FollowToAs1(m)))
  {
  }

  /** to_as1 of a non-empty dict is its conversion, trimmed. */
  lemma ToAs1OfDict(env: Env, m: map<string, Json>)
    requires m != map[]
    ensures var c := Converted(env, m);
      ToAs1(env, JObj(m)) == if c.Err? then Err(c.error) else Ok(env.trimNulls(c.value, {}))
  {
  }

  /** A note dict keeps its objectType, and keeps its inReplyTo list exactly when the URL
      in it is a non-empty string rather than None. */
  lemma TrimmedNote(t: (Json, set<string>) -> Json, n: map<string, Json>, uri: Json)
    requires TrimsNulls(t)
    requires "objectType" in n && n["objectType"].JStr? && n["objectType"].s != ""
    requires "inReplyTo" in n && n["inReplyTo"] == JArr([JObj(map["url" := uri])])
    ensures var r := TrimObject(t, n, {});
      && "objectType" in r && r["objectType"] == n["objectType"]
      && (uri.JStr? && uri.s != "" ==> "inReplyTo" in r && r["inReplyTo"] == n["inReplyTo"])
      && (uri == JNull ==> "inReplyTo" !in r)
  {
    KeepsString(t, n, {}, "objectType");
    TrimInReplyTo(t, uri);
    if uri.JStr? && uri.s != "" {
      KeepsFixed(t, n, {}, "inReplyTo");
    }
  }

  /** A post record becomes a comment exactly when reply.parent.uri is truthy, a note
      otherwise; a string URL of its parent becomes its inReplyTo, and without a parent
      it has no inReplyTo. */
  lemma CommentIffReply(env: Env, m: map<string, Json>)
    requires TrimsNulls(env.trimNulls)
    requires Get(m, "$type") == JStr(PostType) && ToAs1(env, JObj(m)).Ok?
    ensures InReplyTo(m).Ok?
    ensures var uri := InReplyTo(m).value;
      var r := ToAs1(env, JObj(m)).value;
      && r.JObj?
      && "objectType" in r.fields
      && r.fields["objectType"] == JStr(if Truthy(uri) then "comment" else "note")
      && (uri.JStr? && uri.s != "" ==> "inReplyTo" in r.fields && r.fields["inReplyTo"] == JArr([JObj(map["url" := uri])]))
      && (uri == JNull ==> "inReplyTo" !in r.fields)
  {
    ConvertedBranch(env, m);
    ToAs1OfDict(env, m);
    var n := PostToAs1(m).value.fields;
    TrimmedNote(env.trimNulls, n, InReplyTo(m).value);
  }

  /** A feedViewPost without a repost reason comes back as its post converted: the outer
      trim_nulls leaves that conversion alone. Only a truthy reason that is not a dict
      changes this, raising AttributeError once the post has converted. */
  lemma FeedViewPostBack(env: Env, m: map<string, Json>)
    requires TrimsNulls(env.trimNulls)
    requires Get(m, "$type") == JStr(FeedViewPostType) && !IsRepost(m)
    ensures var reason := Get(m, "reason");
      var post := ToAs1(env, Get(m, "post"));
      && (!Truthy(reason) || reason.JObj? ==> ToAs1(env, JObj(m)) == post)
      && (Truthy(reason) && !reason.JObj? ==> ToAs1(env, JObj(m)) == if post.Err? then post else Err(AttributeError))
  {
    ConvertedBranch(env, m);
    ToAs1OfDict(env, m);
    GetIsLower(m, "post");
    var post := ToAs1(env, Get(m, "post"));
    if post.Ok? {
      ReverseIsTrimmed(env, Get(m, "post"));
    }
  }

  /** A repost comes back as a share activity whose object is the post converted and
      whose actor is the reposter converted, each kept when it is not empty. */
  lemma RepostBecomesShare(env: Env, m: map<string, Json>)
    requires TrimsNulls(env.trimNulls)
    requires Get(m, "$type") == JStr(FeedViewPostType) && IsRepost(m) && ToAs1(env, JObj(m)).Ok?
    ensures var post := ToAs1(env, Get(m, "post"));
      var actor := ToAs1(env, Get(Get(m, "reason").fields, "by"));
      var r := ToAs1(env, JObj(m)).value;
      && post.Ok? && actor.Ok? && r.JObj?
      && Get(r.fields, "objectType") == JStr("activity") && Get(r.fields, "verb") == JStr("share")
      && (!IsEmpty(post.value) ==> "object" in r.fields && r.fields["object"] == post.value)
      && (!IsEmpty(actor.value) ==> "actor" in r.fields && r.fields["actor"] == actor.value)
  {
    var t := env.trimNulls;
    ConvertedBranch(env, m);
    ToAs1OfDict(env, m);
    var reason := Get(m, "reason").fields;
    GetIsLower(m, "post");
    GetIsLower(m, "reason");
    GetIsLower(reason, "by");
    var post := ToAs1(env, Get(m, "post"));
    var actor := ToAs1(env, Get(reason, "by"));
    var a := FeedViewPostToAs1(env, m).value.fields;
    assert a == map["objectType" := JStr("activity"), "verb" := JStr("share"), "object" := post.value, "actor" := actor.value];
    KeepsString(t, a, {}, "objectType");
    KeepsString(t, a, {}, "verb");
    if !IsEmpty(post.value) {
      ReverseIsTrimmed(env, Get(m, "post"));
      KeepsFixed(t, a, {}, "object");
    }
    if !IsEmpty(actor.value) {
      ReverseIsTrimmed(env, Get(reason, "by"));
      KeepsFixed(t, a, {}, "actor");
    }
  }

  /** A postView's author and embed come back converted, each kept when it is not
      empty, and a string URI becomes the url. */
  lemma PostViewCarries(env: Env, m: map<string, Json>)
    requires TrimsNulls(env.trimNulls)
    requires Get(m, "$type") == JStr(PostViewType) && ToAs1(env, JObj(m)).Ok?
    ensures var author := ToAs1(env, Get(m, "author"));
      var image := ToAs1(env, Get(m, "embed"));
      var r := ToAs1(env, JObj(m)).value;
      && author.Ok? && image.Ok? && r.JObj?
      && (!IsEmpty(author.value) ==> "author" in r.fields && r.fields["author"] == author.value)
      && (!IsEmpty(image.value) ==> "image" in r.fields && r.fields["image"] == image.value)
      && (Get(m, "uri").JStr? && Get(m, "uri").s != "" ==> "url" in r.fields && r.fields["url"] == Get(m, "uri"))
  {
    var t := env.trimNulls;
    ConvertedBranch(env, m);
    ToAs1OfDict(env, m);
    GetIsLower(m, "record");
    GetIsLower(m, "author");
    GetIsLower(m, "embed");
    var rec := ToAs1(env, Get(m, "record")).value;
    var author := ToAs1(env, Get(m, "author"));
    var image := ToAs1(env, Get(m, "embed"));
    var p := PostViewToAs1(env, m).value.fields;
    assert p == rec.fields + map["url" := Get(m, "uri"), "author" := author.value, "image" := image.value];
    var r := TrimObject(t, p, {});
    if !IsEmpty(author.value) {
      ReverseIsTrimmed(env, Get(m, "author"));
      KeepsFixed(t, p, {}, "author");
    }
    if !IsEmpty(image.value) {
      ReverseIsTrimmed(env, Get(m, "embed"));
      KeepsFixed(t, p, {}, "image");
    }
    if Get(m, "uri").JStr? && Get(m, "uri").s != "" {
      KeepsString(t, p, {}, "url");
    }
  }

  /** The link embed from_as1 writes, app.bsky.embed.external#presented, is not a type
      to_as1 knows: converting it raises ValueError. */
  lemma ExternalEmbedUnsupported(env: Env, m: map<string, Json>)
    requires Get(m, "$type") == JStr(ExternalPresentedType)
    ensures ToAs1(env, JObj(m)) == Err(ValueError(UnknownBskyType(JStr(ExternalPresentedType))))
  {
    assert "$type" in m;
    assert JStr(ExternalPresentedType) !in ConvertedTypes;
    TypeErrors(env, JObj(m));
  }

  /** So a postView whose embed is a link embed does not convert back, even when its
      record and author do. */
  lemma LinkEmbedBlocksPostView(env: Env, m: map<string, Json>)
    requires Get(m, "$type") == JStr(PostViewType)
    requires var rec := ToAs1(env, Get(m, "record")); rec.Ok? && rec.value.JObj?
    requires ToAs1(env, Get(m, "author")).Ok?
    requires Get(m, "embed").JObj? && Get(Get(m, "embed").fields, "$type") == JStr(ExternalPresentedType)
    ensures ToAs1(env, JObj(m)) == Err(ValueError(UnknownBskyType(JStr(ExternalPresentedType))))
  {
    assert "$type" in m;
    ConvertedBranch(env, m);
    ToAs1OfDict(env, m);
    ExternalEmbedUnsupported(env, Get(m, "embed").fields);
  }

  /** from_as1 of a follow whose actor has a string id: a follow record whose subject is
      that id. */
  lemma FollowConverted(env: Env, obj: Json, id: string)
    requires ValidEnv(env) && Converts(obj) && CaseOf(obj) == FollowBranch
    requires Get(env.getObject(obj.fields, "actor"), "id") == JStr(id) && id != ""
    ensures FromAs1(env, obj).Ok?
    ensures var r := FromAs1(env, obj).value;
      Get(r, "$type") == JStr(FollowType) && Get(r, "subject") == JStr(id)
  {
    var t := env.trimNulls;
    var activity := obj.fields;
    UntrimmedFollow(env, obj);
    var rec := FollowRecord(env.getObject(activity, "actor"), Target(activity).fields).value;
    KeepsString(t, rec, RequiredKeys, "$type");
    KeepsString(t, rec, RequiredKeys, "subject");
  }

  /** to_as1 of a follow record with a string subject: a follow activity whose actor's url
      is the subject. */
  lemma FollowBack(env: Env, r: map<string, Json>, id: string)
    requires TrimsNulls(env.trimNulls)
    requires Get(r, "$type") == JStr(FollowType) && Get(r, "subject") == JStr(id) && id != ""
    ensures var back := ToAs1(env, JObj(r));
      && back.Ok? && back.value.JObj?
      && Get(back.value.fields, "verb") == JStr("follow")
      && Get(back.value.fields, "actor") == JObj(map["url" := JStr(id)])
  {
    ConvertedBranch(env, r);
    ToAs1OfDict(env, r);
    TrimmedFollow(env.trimNulls, FollowToAs1(r).fields, id);
  }

  /** A follow activity keeps its verb and an actor whose url is a non-empty string. */
  lemma TrimmedFollow(t: (Json, set<string>) -> Json, f: map<string, Json>, id: string)
    requires TrimsNulls(t)
    requires "verb" in f && f["verb"] == JStr("follow")
    requires "actor" in f && f["actor"] == JObj(map["url" := JStr(id)]) && id != ""
    ensures var back := t(JObj(f), {});
      && back.JObj?
      && Get(back.fields, "verb") == JStr("follow")
      && Get(back.fields, "actor") == JObj(map["url" := JStr(id)])
  {
    TrimUrl(t, JStr(id));
    assert "url" in map["url" := JStr(id)];
    KeepsString(t, f, {}, "verb");
    KeepsFixed(t, f, {}, "actor");
  }

  /** Round trip of a follow: from_as1 of a follow whose actor has a string id, then
      to_as1, gives a follow activity whose actor's url is that id. */
  lemma FollowRoundTrip(env: Env, obj: Json, id: string)
    requires ValidEnv(env) && Converts(obj) && CaseOf(obj) == FollowBranch
    requires Get(env.getObject(obj.fields, "actor"), "id") == JStr(id) && id != ""
    ensures FromAs1(env, obj).Ok?
    ensures var back := ToAs1(env, JObj(FromAs1(env, obj).value));
      && back.Ok? && back.value.JObj?
      && Get(back.value.fields, "verb") == JStr("follow")
      && Get(back.value.fields, "actor") == JObj(map["url" := JStr(id)])
  {
    FollowConverted(env, obj, id);
    FollowBack(env, FromAs1(env, obj).value, id);
  }

  /** to_as1 of a profileView whose did converts: a person whose url is the did's URL. */
  lemma ProfileBack(env: Env, r: map<string, Json>, did: string)
    requires TrimsNulls(env.trimNulls)
    requires Get(r, "$type") == JStr(ProfileViewType) && Get(r, "did") == JStr(did)
    requires DidWebToUrl(env.urllib, did).Ok?
    ensures var back := ToAs1(env, JObj(r));
      && back.Ok? && back.value.JObj?
      && Get(back.value.fields, "objectType") == JStr("person")
      && Get(back.value.fields, "url") == JStr(DidWebToUrl(env.urllib, did).value)
  {
    var t := env.trimNulls;
    ConvertedBranch(env, r);
    ToAs1OfDict(env, r);
    var p := ActorToAs1(env.urllib, r).value.fields;
    KeepsString(t, p, {}, "objectType");
    KeepsString(t, p, {}, "url");
  }

  /** Round trip of a person's URL: from_as1 turns the URL into a did:web and to_as1 turns
      the did back into https://host followed by the path, or by '/' for an empty path,
      when the path has no ':' or '%' and a longer path does not end in '/'. */
  lemma ProfileUrlRoundTrip(env: Env, obj: Json)
    requires ValidEnv(env) && Converts(obj) && CaseOf(obj) == PersonBranch
    requires var o := Target(obj.fields).fields;
      var username := Get(o, "username");
      && Banner(env.getList(o, "image")).Ok?
      && ActorUrl(env, o).JStr?
      && (!Truthy(username) || username.JStr? || username.JArr?)
    requires var p := env.urllib.urlparse(ActorUrl(env, Target(obj.fields).fields).s);
      p.netloc != "" && ':' !in p.path && '%' !in p.path &&
      (p.path == "" || p.path == "/" || p.path[|p.path| - 1] != '/')
    ensures FromAs1(env, obj).Ok?
    ensures var back := ToAs1(env, JObj(FromAs1(env, obj).value));
      var p := env.urllib.urlparse(ActorUrl(env, Target(obj.fields).fields).s);
      && back.Ok? && back.value.JObj?
      && Get(back.value.fields, "objectType") == JStr("person")
      && Get(back.value.fields, "url") == JStr("https://" + p.netloc + (if p.path == "" then "/" else p.path))
  {
    var url := ActorUrl(env, Target(obj.fields).fields).s;
    PersonProfile(env, obj);
    RoundTrip(env.urllib, url);
    ProfileBack(env, FromAs1(env, obj).value, DidOf(env.urllib, url));
  }

  /** Entities to_as1 reads as tags: dicts, each link among them with an index dict whose
      start and end are numbers. */
  ghost predicate Taggable(entities: seq<Json>) {
    forall i :: 0 <= i < |entities| ==> entities[i].JObj? && (IsLink(entities[i]) ==> LinkTag(entities[i].fields).Ok?)
  }

  /** The tag loop of to_as1 gets through entities it can read. */
  lemma {:induction false} TaggableTags(entities: seq<Json>)
    requires Taggable(entities)
    ensures Tags(entities).Ok?
  {
    if entities != [] {
      assert forall i :: 0 <= i < |entities| - 1 ==> entities[1..][i] == entities[i + 1];
      TaggableTags(entities[1..]);
    }
  }

  /** A link entity whose index holds int start and end is still, once trimmed, a link
      whose index to_as1 reads. */
  lemma TrimmedEntityTaggable(t: (Json, set<string>) -> Json, e: Json, keep: set<string>)
    requires TrimsNulls(t) && e.JObj? && Get(e.fields, "type") == JStr("link")
    requires Get(e.fields, "index").JObj?
    requires Get(Get(e.fields, "index").fields, "start").JInt? && Get(Get(e.fields, "index").fields, "end").JInt?
    ensures t(e, keep).JObj? && IsLink(t(e, keep)) && LinkTag(t(e, keep).fields).Ok?
  {
    var m := e.fields;
    var ix := m["index"].fields;
    KeepsString(t, m, keep, "type");
    assert t(ix["start"], keep) == ix["start"];
    assert t(ix["end"], keep) == ix["end"];
    KeepsFixed(t, ix, keep, "start");
    KeepsFixed(t, ix, keep, "end");
    assert t(m["index"], keep) == JObj(TrimObject(t, ix, keep));
    assert "index" in TrimObject(t, m, keep);
  }

  /** int() reads the tag's startIndex and length, and the content can be sliced there:
      the tag's entity gets an index. */
  ghost predicate IndexReads(env: Env, tag: Json, content: Json) {
    && tag.JObj?
    && var start := env.toInt(Get(tag.fields, "startIndex"));
    && var length := env.toInt(Get(tag.fields, "length"));
    && start.Some? && length.Some? && SliceContent(content, start.value, start.value + length.value).Some?
  }

  /** Every link tag of `o` has an index. */
  ghost predicate LinksIndexed(env: Env, o: map<string, Json>) {
    var links := LinkTags(env.getList(o, "tags"));
    forall i :: 0 <= i < |links| ==> IndexReads(env, links[i], Get(o, "content"))
  }

  /** A record whose link tags all have an index keeps entities to_as1 reads as tags. */
  lemma RecordTaggable(env: Env, o: map<string, Json>, record: map<string, Json>)
    requires TrimsNulls(env.trimNulls) && EntitiesKept(env, o, record) && LinksIndexed(env, o)
    ensures "entities" in record ==> record["entities"].JArr? && Taggable(record["entities"].items)
  {
    var links := LinkTags(env.getList(o, "tags"));
    var es := Entities(env, env.getList(o, "tags"), Get(o, "content"), IsHtml(env, o)).value;
    if "entities" in record {
      var items := record["entities"].items;
      assert |items| == |links| == |es|;
      forall i | 0 <= i < |items|
        ensures items[i].JObj? && (IsLink(items[i]) ==> LinkTag(items[i].fields).Ok?)
      {
        assert IndexReads(env, links[i], Get(o, "content"));
        assert EntityOfTag(env, links[i], es[i], Get(o, "content"));
        TrimmedEntityTaggable(env.trimNulls, es[i], RequiredKeys);
      }
    }
  }

  /** A note dict as to_as1 returns it for a post: a comment exactly when `inReplyTo` is
      a URL, a note otherwise; `text` as content; the URL as inReplyTo; a scalar
      `published` as published; each only when not empty. */
  ghost predicate NoteOf(b: Json, text: string, inReplyTo: string, published: Json) {
    && b.JObj?
    && Get(b.fields, "objectType") == JStr(if inReplyTo != "" then "comment" else "note")
    && Get(b.fields, "content") == (if text == "" then JNull else JStr(text))
    && Get(b.fields, "inReplyTo") == (if inReplyTo == "" then JNull else JArr([JObj(map["url" := JStr(inReplyTo)])]))
    && (IsScalar(published) ==> Get(b.fields, "published") == (if IsEmpty(published) then JNull else published))
  }

  /** What comes back of a post `o` converted and converted back: the note of its
      rendered text, its inReplyTo URL and its published time ('' when it has none). */
  ghost predicate NoteBack(env: Env, o: map<string, Json>, b: Json) {
    NoteOf(b, PostText(env, o), env.getUrl(o, Some("inReplyTo")), if "published" in o then o["published"] else JStr(""))
  }

  /** The untrimmed note to_as1 builds from a record with the given text, createdAt and
      reply reference. */
  ghost predicate NoteFields(n: map<string, Json>, text: string, inReplyTo: string, published: Json) {
    && "objectType" in n && n["objectType"] == JStr(if inReplyTo != "" then "comment" else "note")
    && "content" in n && n["content"] == JStr(text)
    && "inReplyTo" in n && n["inReplyTo"] == JArr([JObj(map["url" := if inReplyTo == "" then JNull else JStr(inReplyTo)])])
    && "published" in n && (IsScalar(published) ==> n["published"] == published)
  }

  /** The note to_as1 builds from a record it can read. */
  lemma RecordNote(record: map<string, Json>, text: string, inReplyTo: string, published: Json)
    requires Get(record, "text") == JStr(text)
    requires "createdAt" in record && (IsScalar(published) ==> record["createdAt"] == published)
    requires "reply" in record <==> inReplyTo != ""
    requires inReplyTo != "" ==> RepliesTo(record["reply"], inReplyTo)
    requires "entities" in record ==> record["entities"].JArr? && Taggable(record["entities"].items)
    ensures PostToAs1(record).Ok? && PostToAs1(record).value.JObj?
    ensures NoteFields(PostToAs1(record).value.fields, text, inReplyTo, published)
  {
    if "entities" in record {
      TaggableTags(record["entities"].items);
    }
    assert InReplyTo(record).value == if inReplyTo == "" then JNull else JStr(inReplyTo);
  }

  /** Trimming such a note leaves the note of the post. */
  lemma TrimmedNoteOf(t: (Json, set<string>) -> Json, n: map<string, Json>, text: string, inReplyTo: string, published: Json)
    requires TrimsNulls(t) && NoteFields(n, text, inReplyTo, published)
    ensures NoteOf(t(JObj(n), {}), text, inReplyTo, published)
  {
    TrimmedNote(t, n, if inReplyTo == "" then JNull else JStr(inReplyTo));
    if text != "" {
      KeepsString(t, n, {}, "content");
    } else {
      assert t(n["content"], {}) == JStr("");
    }
    if IsScalar(published) {
      assert t(n["published"], {}) == published;
    }
  }

  /** to_as1 of the record from_as1 writes for `o`, when to_as1 can read its entities. */
  lemma RecordBack(env: Env, o: map<string, Json>, record: map<string, Json>)
    requires TrimsNulls(env.trimNulls) && RecordFieldsKept(env, o, record)
    requires "entities" in record ==> record["entities"].JArr? && Taggable(record["entities"].items)
    ensures ToAs1(env, JObj(record)).Ok? && NoteBack(env, o, ToAs1(env, JObj(record)).value)
  {
    var text := PostText(env, o);
    var inReplyTo := env.getUrl(o, Some("inReplyTo"));
    var published := if "published" in o then o["published"] else JStr("");
    RecordNote(record, text, inReplyTo, published);
    ConvertedBranch(env, record);
    ToAs1OfDict(env, record);
    TrimmedNoteOf(env.trimNulls, PostToAs1(record).value.fields, text, inReplyTo, published);
  }

  /** A note trimming leaves alone, with its url, author and image added, trims to the
      same note; an empty author is trimmed away. */
  lemma NoteOfUnion(t: (Json, set<string>) -> Json, rec: Json, x: map<string, Json>, text: string, inReplyTo: string, published: Json)
    requires TrimsNulls(t) && t(rec, {}) == rec && NoteOf(rec, text, inReplyTo, published)
    requires x.Keys == {"url", "author", "image"}
    ensures NoteOf(t(JObj(rec.fields + x), {}), text, inReplyTo, published)
    ensures x["author"] == JObj(map[]) ==> "author" !in t(JObj(rec.fields + x), {}).fields
  {
    var f := rec.fields;
    assert TrimObject(t, f, {}) == f;
    NoteKeys(t, f, x);
    if x["author"] == JObj(map[]) {
      EmptyDropped(t, f + x, "author");
    }
  }

  /** The note's members are the same in the trimmed union. */
  lemma NoteKeys(t: (Json, set<string>) -> Json, f: map<string, Json>, x: map<string, Json>)
    requires TrimsNulls(t) && TrimObject(t, f, {}) == f && x.Keys == {"url", "author", "image"}
    ensures var u := TrimObject(t, f + x, {});
      && Get(u, "objectType") == Get(f, "objectType") && Get(u, "content") == Get(f, "content")
      && Get(u, "inReplyTo") == Get(f, "inReplyTo") && Get(u, "published") == Get(f, "published")
  {
    UnionKeeps(t, f, x, "objectType");
    UnionKeeps(t, f, x, "content");
    UnionKeeps(t, f, x, "inReplyTo");
    UnionKeeps(t, f, x, "published");
  }

  /** trim_nulls drops an empty dict. */
  lemma EmptyDropped(t: (Json, set<string>) -> Json, m: map<string, Json>, k: string)
    requires TrimsNulls(t) && k in m && m[k] == JObj(map[])
    ensures k !in TrimObject(t, m, {})
  {
    TrimEmpty(t, {});
    assert k !in TrimObject(t, m, {});
  }

  /** A member the union does not replace keeps, in the trimmed union, what it was in a
      dict trimming leaves alone. */
  lemma UnionKeeps(t: (Json, set<string>) -> Json, f: map<string, Json>, x: map<string, Json>, k: string)
    requires TrimsNulls(t) && TrimObject(t, f, {}) == f && k !in x
    ensures Get(TrimObject(t, f + x, {}), k) == Get(f, k)
  {
    TrimmedMembers(t, f, {});
    if k in f {
      assert (f + x)[k] == f[k];
    }
  }

  /** A postView whose record, author and embed convert comes back as its record
      converted, with its uri as url and its author and embed converted added, trimmed. */
  lemma PostViewValue(env: Env, m: map<string, Json>)
    requires TrimsNulls(env.trimNulls)
    requires Get(m, "$type") == JStr(PostViewType) && "record" in m
    requires ToAs1(env, m["record"]).Ok? && ToAs1(env, m["record"]).value.JObj?
    requires ToAs1(env, Get(m, "author")).Ok? && ToAs1(env, Get(m, "embed")).Ok?
    ensures ToAs1(env, JObj(m)) == Ok(env.trimNulls(JObj(ToAs1(env, m["record"]).value.fields + map[
      "url" := Get(m, "uri"), "author" := ToAs1(env, Get(m, "author")).value, "image" := ToAs1(env, Get(m, "embed")).value]), {}))
  {
    ConvertedBranch(env, m);
    ToAs1OfDict(env, m);
    GetIsLower(m, "record");
    GetIsLower(m, "author");
    GetIsLower(m, "embed");
  }

  /** A postView comes back as its record converted, with its url, author and image
      added: the record's note is still the note, and a missing author leaves none. */
  lemma PostViewBack(env: Env, m: map<string, Json>, text: string, inReplyTo: string, published: Json)
    requires TrimsNulls(env.trimNulls)
    requires Get(m, "$type") == JStr(PostViewType) && "record" in m
    requires ToAs1(env, m["record"]).Ok? && NoteOf(ToAs1(env, m["record"]).value, text, inReplyTo, published)
    requires ToAs1(env, Get(m, "author")).Ok? && ToAs1(env, Get(m, "embed")).Ok?
    ensures ToAs1(env, JObj(m)).Ok? && NoteOf(ToAs1(env, JObj(m)).value, text, inReplyTo, published)
    ensures "author" !in m ==> "author" !in ToAs1(env, JObj(m)).value.fields
  {
    PostViewValue(env, m);
    ReverseIsTrimmed(env, m["record"]);
    var x := map["url" := Get(m, "uri"), "author" := ToAs1(env, Get(m, "author")).value, "image" := ToAs1(env, Get(m, "embed")).value];
    NoteOfUnion(env.trimNulls, ToAs1(env, m["record"]).value, x, text, inReplyTo, published);
  }

  /** The presented image embed from_as1 writes converts back. */
  lemma ShownImagesBack(env: Env, images: seq<Json>, post: map<string, Json>)
    requires TrimsNulls(env.trimNulls) && ShownImagesKept(env.trimNulls, images, post)
    ensures ToAs1(env, Get(post, "embed")).Ok?
  {
    var shown := post["embed"].fields;
    var items := shown["images"].items;
    forall i | 0 <= i < |items|
      ensures items[i].JObj?
    {
      TrimmedNonEmpty(env.trimNulls, PresentedImage(images[i].fields), "$type", RequiredKeys);
    }
    ToAs1OfDict(env, shown);
  }

  /** A profile converted back: a person, whose url is did_web_to_url of its did. */
  ghost predicate PersonBack(u: Urllib, did: Json, back: Json) {
    && back.JObj?
    && Get(back.fields, "objectType") == JStr("person")
    && (did.JStr? && did.s != "" ==> DidWebToUrl(u, did.s).Ok? && Get(back.fields, "url") == JStr(DidWebToUrl(u, did.s).value))
  }

  /** An author from_as1 converted, retyped as a profileViewBasic and trimmed, converts
      back to a person whose url is did_web_to_url of its did. */
  lemma AuthorBack(env: Env, a: map<string, Json>)
    requires TrimsNulls(env.trimNulls) && WrittenDid(env.urllib, Get(a, "did"))
    ensures var back := ToAs1(env, env.trimNulls(JObj(a["$type" := JStr(ProfileViewBasicType)]), RequiredKeys));
      back.Ok? && PersonBack(env.urllib, Get(a, "did"), back.value)
  {
    var t := env.trimNulls;
    var view := a["$type" := JStr(ProfileViewBasicType)];
    KeepsString(t, view, RequiredKeys, "$type");
    KeepsWrittenDid(t, env.urllib, view);
    ActorBack(env, TrimObject(t, view, RequiredKeys));
  }

  /** A profileViewBasic with a written did converts back to a person whose url is
      did_web_to_url of that did. */
  lemma ActorBack(env: Env, m: map<string, Json>)
    requires TrimsNulls(env.trimNulls)
    requires Get(m, "$type") == JStr(ProfileViewBasicType) && WrittenDid(env.urllib, Get(m, "did"))
    ensures ToAs1(env, JObj(m)).Ok? && PersonBack(env.urllib, Get(m, "did"), ToAs1(env, JObj(m)).value)
  {
    var t := env.trimNulls;
    ConvertedBranch(env, m);
    ToAs1OfDict(env, m);
    var p := ActorToAs1(env.urllib, m).value.fields;
    KeepsString(t, p, {}, "objectType");
    if Truthy(Get(m, "did")) {
      KeepsString(t, p, {}, "url");
    }
  }

  /** The shape of a converted post: a feedViewPost without a reason, holding a postView
      that holds the record. */
  ghost predicate FeedShape(r: map<string, Json>) {
    && Get(r, "$type") == JStr(FeedViewPostType) && "reason" !in r
    && "post" in r && r["post"] == JObj(PostOf(r))
    && Get(PostOf(r), "$type") == JStr(PostViewType)
    && "record" in PostOf(r) && PostOf(r)["record"] == JObj(RecordOf(PostOf(r)))
  }

  lemma TrimmedFeedShape(env: Env, o: map<string, Json>, text: string, es: seq<Json>, embeds: Embeds, author: Json)
    requires TrimsNulls(env.trimNulls)
    ensures FeedShape(TrimObject(env.trimNulls, FeedViewPost(env, o, text, es, embeds, author), RequiredKeys))
  {
    TrimmedFeedViewPost(env, o, text, es, embeds, author);
    assert "reason" !in FeedViewPost(env, o, text, es, embeds, author);
  }

  /** A converted post has that shape. */
  lemma PostFeedShape(env: Env, obj: Json)
    requires ValidEnv(env) && Converts(obj) && CaseOf(obj) == PostBranch && FromAs1(env, obj).Ok?
    ensures FeedShape(FromAs1(env, obj).value)
  {
    var o := Target(obj.fields).fields;
    PostShape(env, obj);
    var es := Entities(env, env.getList(o, "tags"), Get(o, "content"), IsHtml(env, o)).value;
    var embeds := PostEmbeds(env.getList(o, "image"), es).value;
    TrimmedFeedShape(env, o, PostText(env, o), es, embeds, AuthorView(env, obj.fields, o).value);
  }

  /** A postView without an embed keeps none. */
  lemma NoEmbedKept(t: (Json, set<string>) -> Json, pm: map<string, Json>)
    requires TrimsNulls(t) && "embed" in pm && pm["embed"] == JNull
    ensures "embed" !in TrimObject(t, pm, RequiredKeys)
  {
    assert t(JNull, RequiredKeys) == JNull;
  }

  /** The postView's embed converts back when the post has images, or has no link tag and
      so no embed. */
  lemma PostEmbedBack(env: Env, obj: Json)
    requires ValidEnv(env) && Converts(obj) && CaseOf(obj) == PostBranch && FromAs1(env, obj).Ok?
    requires var o := Target(obj.fields).fields;
      env.getList(o, "image") != [] || LinkTags(env.getList(o, "tags")) == []
    ensures ToAs1(env, Get(PostOf(FromAs1(env, obj).value), "embed")).Ok?
  {
    var images := env.getList(Target(obj.fields).fields, "image");
    if images != [] {
      PostImages(env, obj);
      ShownImagesBack(env, images, PostOf(FromAs1(env, obj).value));
    } else {
      PostNoEmbed(env, obj);
    }
  }

  /** A post without images or link tags has no embed. */
  lemma PostNoEmbed(env: Env, obj: Json)
    requires ValidEnv(env) && Converts(obj) && CaseOf(obj) == PostBranch && FromAs1(env, obj).Ok?
    requires var o := Target(obj.fields).fields;
      env.getList(o, "image") == [] && LinkTags(env.getList(o, "tags")) == []
    ensures "embed" !in PostOf(FromAs1(env, obj).value)
  {
    var o := Target(obj.fields).fields;
    PostEntities(env, obj);
    PostParts(env, obj);
    var es := Entities(env, env.getList(o, "tags"), Get(o, "content"), IsHtml(env, o)).value;
    TrimmedNoEmbed(env, o, PostText(env, o), es, AuthorView(env, obj.fields, o).value);
  }

  lemma TrimmedNoEmbed(env: Env, o: map<string, Json>, text: string, es: seq<Json>, author: Json)
    requires TrimsNulls(env.trimNulls) && es == []
    ensures "embed" !in TrimObject(env.trimNulls, PostView(env, o, text, es, PostEmbeds([], es).value, author), RequiredKeys)
  {
    var pm := PostView(env, o, text, es, PostEmbeds([], es).value, author);
    PostViewFields(env, o, text, es, PostEmbeds([], es).value, author);
    NoEmbedKept(env.trimNulls, pm);
  }

  /** The postView's author converts back: none when the post has none, otherwise a
      person whose url is did_web_to_url of the did from_as1 gave the author. */
  ghost predicate AuthorConvertsBack(env: Env, o: map<string, Json>, post: map<string, Json>)
    requires ValidEnv(env)
  {
    var author := env.getObject(o, "author");
    && ToAs1(env, Get(post, "author")).Ok?
    && (author == map[] ==> "author" !in post)
    && (author != map[] ==>
          && FromAs1(env, JObj(author)).Ok?
          && PersonBack(env.urllib, Get(FromAs1(env, JObj(author)).value, "did"), ToAs1(env, Get(post, "author")).value))
  }

  lemma PostAuthorBack(env: Env, obj: Json)
    requires ValidEnv(env) && Converts(obj) && CaseOf(obj) == PostBranch && FromAs1(env, obj).Ok?
    ensures AuthorConvertsBack(env, Target(obj.fields).fields, PostOf(FromAs1(env, obj).value))
  {
    var author := env.getObject(Target(obj.fields).fields, "author");
    PostAuthor(env, obj);
    if author != map[] {
      ConvertedDid(env, JObj(author));
      AuthorBack(env, FromAs1(env, JObj(author)).value);
    }
  }

  /** The postView keeps the post's URL as its uri. */
  lemma PostUriKept(env: Env, obj: Json)
    requires ValidEnv(env) && Converts(obj) && CaseOf(obj) == PostBranch && FromAs1(env, obj).Ok?
    ensures var url := env.getUrl(Target(obj.fields).fields, None);
      url != "" ==> Get(PostOf(FromAs1(env, obj).value), "uri") == JStr(url)
  {
    var o := Target(obj.fields).fields;
    PostParts(env, obj);
    var es := Entities(env, env.getList(o, "tags"), Get(o, "content"), IsHtml(env, o)).value;
    var embeds := PostEmbeds(env.getList(o, "image"), es).value;
    TrimmedUri(env, o, PostText(env, o), es, embeds, AuthorView(env, obj.fields, o).value);
  }

  lemma TrimmedUri(env: Env, o: map<string, Json>, text: string, es: seq<Json>, embeds: Embeds, author: Json)
    requires TrimsNulls(env.trimNulls)
    ensures var url := env.getUrl(o, None);
      url != "" ==> Get(TrimObject(env.trimNulls, PostView(env, o, text, es, embeds, author), RequiredKeys), "uri") == JStr(url)
  {
    if env.getUrl(o, None) != "" {
      KeepsString(env.trimNulls, PostView(env, o, text, es, embeds, author), RequiredKeys, "uri");
    }
  }

  /** A post `o` converted and converted back: the note of its text, inReplyTo URL and
      published time, its URL as url, and its author. */
  ghost predicate PostBack(env: Env, o: map<string, Json>, back: Json)
    requires ValidEnv(env)
  {
    && NoteBack(env, o, back)
    && (env.getUrl(o, None) != "" ==> Get(back.fields, "url") == JStr(env.getUrl(o, None)))
    && AuthorCameBack(env, o, back.fields)
  }

  /** No author when the post has none; otherwise a person whose url is did_web_to_url of
      the did from_as1 gave the author. */
  ghost predicate AuthorCameBack(env: Env, o: map<string, Json>, back: map<string, Json>)
    requires ValidEnv(env)
  {
    var author := env.getObject(o, "author");
    && (author == map[] ==> "author" !in back)
    && (author != map[] ==>
          && FromAs1(env, JObj(author)).Ok?
          && "author" in back
          && PersonBack(env.urllib, Get(FromAs1(env, JObj(author)).value, "did"), back["author"]))
  }

  /** to_as1 of a postView shaped as from_as1 writes one for `o`, when its record's
      entities, its embed and its author convert back. */
  lemma PostViewRoundTrip(env: Env, o: map<string, Json>, post: map<string, Json>)
    requires ValidEnv(env) && LinksIndexed(env, o)
    requires Get(post, "$type") == JStr(PostViewType) && "record" in post && post["record"] == JObj(RecordOf(post))
    requires RecordFieldsKept(env, o, RecordOf(post)) && EntitiesKept(env, o, RecordOf(post))
    requires ToAs1(env, Get(post, "embed")).Ok? && AuthorConvertsBack(env, o, post)
    requires env.getUrl(o, None) != "" ==> Get(post, "uri") == JStr(env.getUrl(o, None))
    ensures ToAs1(env, JObj(post)).Ok? && PostBack(env, o, ToAs1(env, JObj(post)).value)
  {
    PostViewNote(env, o, post);
    PostViewAuthor(env, o, post);
  }

  /** The url and author part of that. */
  lemma PostViewAuthor(env: Env, o: map<string, Json>, post: map<string, Json>)
    requires ValidEnv(env) && Get(post, "$type") == JStr(PostViewType)
    requires ToAs1(env, JObj(post)).Ok? && ToAs1(env, JObj(post)).value.JObj? && AuthorConvertsBack(env, o, post)
    requires "author" !in post ==> "author" !in ToAs1(env, JObj(post)).value.fields
    requires env.getUrl(o, None) != "" ==> Get(post, "uri") == JStr(env.getUrl(o, None))
    ensures AuthorCameBack(env, o, ToAs1(env, JObj(post)).value.fields)
    ensures env.getUrl(o, None) != "" ==> Get(ToAs1(env, JObj(post)).value.fields, "url") == JStr(env.getUrl(o, None))
  {
    PostViewCarries(env, post);
    var author := env.getObject(o, "author");
    if author != map[] {
      PersonNotEmpty(env.urllib, Get(FromAs1(env, JObj(author)).value, "did"), ToAs1(env, Get(post, "author")).value);
    }
  }

  /** A person is never empty, so trim_nulls keeps it. */
  lemma PersonNotEmpty(u: Urllib, did: Json, back: Json)
    requires PersonBack(u, did, back)
    ensures !IsEmpty(back)
  {
    assert "objectType" in back.fields;
  }

  /** The note part of that. */
  lemma PostViewNote(env: Env, o: map<string, Json>, post: map<string, Json>)
    requires TrimsNulls(env.trimNulls) && LinksIndexed(env, o)
    requires Get(post, "$type") == JStr(PostViewType) && "record" in post && post["record"] == JObj(RecordOf(post))
    requires RecordFieldsKept(env, o, RecordOf(post)) && EntitiesKept(env, o, RecordOf(post))
    requires ToAs1(env, Get(post, "embed")).Ok? && ToAs1(env, Get(post, "author")).Ok?
    ensures ToAs1(env, JObj(post)).Ok? && NoteBack(env, o, ToAs1(env, JObj(post)).value)
    ensures "author" !in post ==> "author" !in ToAs1(env, JObj(post)).value.fields
  {
    var record := RecordOf(post);
    RecordTaggable(env, o, record);
    RecordBack(env, o, record);
    PostViewBack(env, post, PostText(env, o), env.getUrl(o, Some("inReplyTo")), if "published" in o then o["published"] else JStr(""));
  }

  /** to_as1 of a feedViewPost shaped as from_as1 writes one is that of its postView. */
  lemma FeedBack(env: Env, r: map<string, Json>)
    requires TrimsNulls(env.trimNulls) && FeedShape(r)
    ensures ToAs1(env, JObj(r)) == ToAs1(env, JObj(PostOf(r)))
  {
    FeedViewPostBack(env, r);
  }

  /** Round trip of a post: to_as1 of what from_as1 made of it is a comment exactly when
      it replies to a URL, a note otherwise, with its rendered text as content, its
      published time as published, the replied-to URL as inReplyTo, its URL as url, and
      its author, when it has one, as a person whose url is did_web_to_url of the
      author's did. This holds when the post has images or no link tag (a link embed does
      not convert back) and int() reads every link tag's startIndex and length (an index
      of None is trimmed away, and to_as1 then fails on it). */
  lemma PostRoundTrip(env: Env, obj: Json)
    requires ValidEnv(env) && Converts(obj) && CaseOf(obj) == PostBranch && FromAs1(env, obj).Ok?
    requires var o := Target(obj.fields).fields;
      && (env.getList(o, "image") != [] || LinkTags(env.getList(o, "tags")) == [])
      && LinksIndexed(env, o)
    ensures var back := ToAs1(env, JObj(FromAs1(env, obj).value));
      back.Ok? && PostBack(env, Target(obj.fields).fields, back.value)
  {
    PostFeedShape(env, obj);
    PostRecordOut(env, obj);
    PostEntities(env, obj);
    PostEmbedBack(env, obj);
    PostAuthorBack(env, obj);
    PostUriKept(env, obj);
    var r := FromAs1(env, obj).value;
    PostViewRoundTrip(env, Target(obj.fields).fields, PostOf(r));
    FeedBack(env, r);
  }
}
