/** What from_as1 promises about its output, after trim_nulls: which branch produces which
    '$type', which inputs raise, and the shape of profiles, reposts, follows and posts. */
module ForwardProperties {
  import opened Json
  import opened Errors
  import opened Helpers
  import opened Lexicon
  import opened DidWeb
  import opened ProfileViews
  import opened Posts
  import opened Forward

  /** The branch from_as1 takes, in the order it tests them. */
  datatype Case = PersonBranch | ShareBranch | FollowBranch | PostBranch | Unsupported

  function BranchOf(activity: map<string, Json>, o: map<string, Json>): Case {
    var typ := ObjectType(o);
    var verb := Verb(activity);
    if typ == JStr("person") then PersonBranch
    else if verb == JStr("share") then ShareBranch
    else if verb == JStr("follow") then FollowBranch
    else if verb == JStr("post") && IsPostType(typ) then PostBranch
    else Unsupported
  }

  /** The input is a dict and so is the object it converts. */
  predicate Converts(obj: Json) {
    obj.JObj? && Target(obj.fields).JObj?
  }

  function CaseOf(obj: Json): Case
    requires Converts(obj)
  {
    BranchOf(obj.fields, Target(obj.fields).fields)
  }

  /** trim_nulls keeps a required key, and leaves a scalar under it as it is. */
  lemma KeepsRequiredScalar(t: (Json, set<string>) -> Json, m: map<string, Json>, keep: set<string>, k: string)
    requires TrimsNulls(t) && k in m && k in keep && IsScalar(m[k])
    ensures k in TrimObject(t, m, keep) && TrimObject(t, m, keep)[k] == m[k]
  {
    assert t(m[k], keep) == m[k];
  }

  /** A nested dict with a non-empty '$type' survives trimming as the trimmed dict, and
      keeps that '$type'. */
  lemma KeepsTyped(t: (Json, set<string>) -> Json, m: map<string, Json>, keep: set<string>, k: string)
    requires TrimsNulls(t) && k in m && m[k].JObj?
    requires "$type" in m[k].fields && m[k].fields["$type"].JStr? && m[k].fields["$type"].s != ""
    ensures k in TrimObject(t, m, keep)
    ensures TrimObject(t, m, keep)[k] == JObj(TrimObject(t, m[k].fields, keep))
    ensures "$type" in TrimObject(t, m[k].fields, keep)
    ensures TrimObject(t, m[k].fields, keep)["$type"] == m[k].fields["$type"]
  {
    var inner := m[k].fields;
    KeepsString(t, inner, keep, "$type");
    assert t(m[k], keep) == JObj(TrimObject(t, inner, keep));
  }

  /** A value that is not a dict, or whose converted object is not a dict, raises
      AttributeError. */
  lemma NonDictRaises(env: Env, obj: Json)
    requires ValidEnv(env)
    requires !Converts(obj)
    ensures FromAs1(env, obj) == Err(AttributeError)
  {
  }

  /** An objectType and verb outside person, share, follow and post-of-a-post-type raise
      ValueError naming both. */
  lemma UnsupportedRaises(env: Env, obj: Json)
    requires ValidEnv(env)
    requires Converts(obj) && CaseOf(obj) == Unsupported
    ensures var o := Target(obj.fields).fields;
      FromAs1(env, obj) == Err(ValueError(UnknownAs1Type(ObjectType(o), Verb(obj.fields))))
  {
    var o := Target(obj.fields).fields;
    assert Untrimmed(env, obj) == Err(ValueError(UnknownAs1Type(ObjectType(o), Verb(obj.fields))));
  }

  /** A follow fails its assert exactly when the activity has no actor. */
  lemma FollowNeedsActor(env: Env, obj: Json)
    requires ValidEnv(env)
    requires Converts(obj) && CaseOf(obj) == FollowBranch
    ensures FromAs1(env, obj).Err? <==> env.getObject(obj.fields, "actor") == map[]
    ensures FromAs1(env, obj).Err? ==> FromAs1(env, obj).error == AssertionError
  {
  }

  /** The '$type' follows the branch: person gives a profileView, follow a follow, post a
      feedViewPost, and a repost keeps the '$type' of the object reposted. */
  lemma BranchType(env: Env, obj: Json)
    requires ValidEnv(env) && FromAs1(env, obj).Ok?
    ensures Converts(obj) && CaseOf(obj) != Unsupported
    ensures var r := FromAs1(env, obj).value;
      && (CaseOf(obj) == PersonBranch ==> r["$type"] == JStr(ProfileViewType))
      && (CaseOf(obj) == FollowBranch ==> r["$type"] == JStr(FollowType))
      && (CaseOf(obj) == PostBranch ==> r["$type"] == JStr(FeedViewPostType))
      && (CaseOf(obj) == ShareBranch ==>
            var shared := FromAs1(env, Get(obj.fields, "object"));
            shared.Ok? && r["$type"] == shared.value["$type"])
  {
    ConvertsWhenOk(env, obj);
    var c := CaseOf(obj);
    if c == PersonBranch || c == FollowBranch || c == PostBranch {
      FixedBranchType(env, obj);
    } else if c == ShareBranch {
      ShareType(env, obj);
    }
  }

  /** The person, follow and post branches each give their own '$type'. */
  lemma FixedBranchType(env: Env, obj: Json)
    requires ValidEnv(env) && FromAs1(env, obj).Ok? && Converts(obj)
    requires CaseOf(obj) == PersonBranch || CaseOf(obj) == FollowBranch || CaseOf(obj) == PostBranch
    ensures var r := FromAs1(env, obj).value;
      && (CaseOf(obj) == PersonBranch ==> r["$type"] == JStr(ProfileViewType))
      && (CaseOf(obj) == FollowBranch ==> r["$type"] == JStr(FollowType))
      && (CaseOf(obj) == PostBranch ==> r["$type"] == JStr(FeedViewPostType))
  {
    var c := CaseOf(obj);
    if c == PersonBranch {
      UntrimmedPerson(env, obj);
    } else if c == FollowBranch {
      UntrimmedFollow(env, obj);
    } else {
      UntrimmedPost(env, obj);
    }
    KeepsString(env.trimNulls, Untrimmed(env, obj).value, RequiredKeys, "$type");
  }

  /** A repost has the '$type' of the object reposted. */
  lemma ShareType(env: Env, obj: Json)
    requires ValidEnv(env) && FromAs1(env, obj).Ok? && Converts(obj) && CaseOf(obj) == ShareBranch
    ensures var shared := FromAs1(env, Get(obj.fields, "object"));
      shared.Ok? && FromAs1(env, obj).value["$type"] == shared.value["$type"]
  {
    RepostWrapsObject(env, obj);
  }

  /** Only a dict whose converted object is a dict, in one of the four branches, converts. */
  lemma ConvertsWhenOk(env: Env, obj: Json)
    requires ValidEnv(env)
    ensures FromAs1(env, obj).Ok? ==> Converts(obj) && CaseOf(obj) != Unsupported
  {
    if Converts(obj) && CaseOf(obj) == Unsupported {
      UnsupportedRaises(env, obj);
    }
  }

  /** A successful repost is the reposted object, converted, with a 'reason' naming the
      converted actor. */
  lemma RepostValue(env: Env, activity: map<string, Json>)
    requires ValidEnv(env) && Verb(activity) == JStr("share") && Repost(env, activity).Ok?
    ensures var shared := FromAs1(env, Get(activity, "object"));
      var reposter := FromAs1(env, JObj(env.getObject(activity, "actor")));
      && shared.Ok? && reposter.Ok?
      && Repost(env, activity).value == shared.value["reason" := RepostReason(reposter.value, env.now)]
  {
  }

  /** Trimming what from_as1 returned changes nothing. */
  lemma ConvertedIsTrimmed(env: Env, obj: Json)
    requires ValidEnv(env) && FromAs1(env, obj).Ok?
    ensures var r := FromAs1(env, obj).value;
      TrimObject(env.trimNulls, r, RequiredKeys) == r
  {
    var t := env.trimNulls;
    var ret := Untrimmed(env, obj).value;
    var r := FromAs1(env, obj).value;
    assert JObj(r) == t(JObj(ret), RequiredKeys);
    TrimIdempotent(t, JObj(ret), RequiredKeys);
  }

  /** A person is built by the profileView function. */
  lemma UntrimmedPerson(env: Env, obj: Json)
    requires ValidEnv(env) && Converts(obj) && CaseOf(obj) == PersonBranch
    ensures Untrimmed(env, obj) == ProfileView(env, Target(obj.fields).fields)
  {
  }

  /** A share is built by the repost function. */
  lemma UntrimmedShare(env: Env, obj: Json)
    requires ValidEnv(env) && Converts(obj) && CaseOf(obj) == ShareBranch
    ensures Untrimmed(env, obj) == Repost(env, obj.fields)
  {
  }

  /** A follow is built from the activity's actor. */
  lemma UntrimmedFollow(env: Env, obj: Json)
    requires ValidEnv(env) && Converts(obj) && CaseOf(obj) == FollowBranch
    ensures Untrimmed(env, obj) == FollowRecord(env.getObject(obj.fields, "actor"), Target(obj.fields).fields)
  {
  }

  /** A post is built by the post function. */
  lemma UntrimmedPost(env: Env, obj: Json)
    requires ValidEnv(env) && Converts(obj) && CaseOf(obj) == PostBranch
    ensures Untrimmed(env, obj) == Post(env, obj.fields, Target(obj.fields).fields)
  {
  }

  /** Adding a repost reason to a trimmed object gives a dict that is its own trim, when
      the reposter is a trimmed dict with a '$type' and the clock reading is non-empty. */
  lemma ReasonKeepsTrim(t: (Json, set<string>) -> Json, shared: map<string, Json>, reposter: map<string, Json>, now: string, keep: set<string>)
    requires TrimsNulls(t)
    requires TrimObject(t, shared, keep) == shared && TrimObject(t, reposter, keep) == reposter
    requires "$type" in reposter && now != ""
    ensures var ret := shared["reason" := RepostReason(reposter, now)];
      TrimObject(t, ret, keep) == ret
  {
    var reason := map["$type" := JStr(ReasonRepostType), "by" := JObj(reposter), "indexedAt" := JStr(now)];
    assert t(JObj(reposter), keep) == JObj(reposter);
    TrimFixedObject(t, reason, keep);
    TrimmedMembers(t, shared, keep);
    assert "$type" in reason;
    var ret := shared["reason" := JObj(reason)];
    TrimFixedObject(t, ret, keep);
  }

  /** A repost is the reposted object exactly as from_as1 converts it, plus a 'reason' of
      type reasonRepost whose 'by' is the actor exactly as from_as1 converts it and whose
      'indexedAt' is the clock reading. */
  lemma RepostWrapsObject(env: Env, obj: Json)
    requires ValidEnv(env) && FromAs1(env, obj).Ok?
    requires Converts(obj) && CaseOf(obj) == ShareBranch
    ensures var activity := obj.fields;
      var shared := FromAs1(env, Get(activity, "object"));
      var reposter := FromAs1(env, JObj(env.getObject(activity, "actor")));
      && shared.Ok? && reposter.Ok?
      && FromAs1(env, obj).value == shared.value["reason" := JObj(map[
           "$type" := JStr(ReasonRepostType),
           "by" := JObj(reposter.value),
           "indexedAt" := JStr(env.now)])]
  {
    var activity := obj.fields;
    UntrimmedShare(env, obj);
    RepostValue(env, activity);
    var shared := FromAs1(env, Get(activity, "object"));
    var reposter := FromAs1(env, JObj(env.getObject(activity, "actor")));
    ConvertedIsTrimmed(env, Get(activity, "object"));
    ConvertedIsTrimmed(env, JObj(env.getObject(activity, "actor")));
    ReasonKeepsTrim(env.trimNulls, shared.value, reposter.value, env.now, RequiredKeys);
  }
  /** A person converts whenever its URL is a string, no image before the first featured
      one is a non-dict, and its username, if any, is a string or a list: a URL that
      url_to_did_web rejects only leaves the did empty. The did and the handle are always
      present, a non-empty string banner is kept, and the '$type' is profileView. */
  lemma PersonProfile(env: Env, obj: Json)
    requires ValidEnv(env) && Converts(obj) && CaseOf(obj) == PersonBranch
    requires var o := Target(obj.fields).fields;
      var username := Get(o, "username");
      && Banner(env.getList(o, "image")).Ok?
      && ActorUrl(env, o).JStr?
      && (!Truthy(username) || username.JStr? || username.JArr?)
    ensures FromAs1(env, obj).Ok?
    ensures var o := Target(obj.fields).fields;
      var r := FromAs1(env, obj).value;
      var url := ActorUrl(env, o).s;
      var handle := Handle(env.urllib, Get(o, "username"), url);
      var banner := Banner(env.getList(o, "image")).value;
      && r["$type"] == JStr(ProfileViewType)
      && "did" in r && r["did"] == JStr(DidOf(env.urllib, url))
      && "handle" in r && handle.Ok?
      && (handle.value.JStr? ==> r["handle"] == handle.value)
      && (banner.JStr? && banner.s != "" ==> "banner" in r && r["banner"] == banner)
  {
    var o := Target(obj.fields).fields;
    UntrimmedPerson(env, obj);
    var url := ActorUrl(env, o).s;
    TrimmedProfileView(env.trimNulls, ProfileView(env, o).value, DidOf(env.urllib, url),
      Handle(env.urllib, Get(o, "username"), url).value, Banner(env.getList(o, "image")).value);
  }

  /** A profileView keeps its '$type', its did, its handle (unchanged when a string) and a
      non-empty string banner. */
  lemma TrimmedProfileView(t: (Json, set<string>) -> Json, v: map<string, Json>, did: string, handle: Json, banner: Json)
    requires TrimsNulls(t)
    requires "$type" in v && v["$type"] == JStr(ProfileViewType)
    requires "did" in v && v["did"] == JStr(did)
    requires "handle" in v && v["handle"] == handle
    requires "banner" in v && v["banner"] == banner
    ensures var r := TrimObject(t, v, RequiredKeys);
      && "$type" in r && r["$type"] == JStr(ProfileViewType)
      && "did" in r && r["did"] == JStr(did)
      && "handle" in r && (handle.JStr? ==> r["handle"] == handle)
      && (banner.JStr? && banner.s != "" ==> "banner" in r && r["banner"] == banner)
  {
    KeepsString(t, v, RequiredKeys, "$type");
    KeepsRequiredScalar(t, v, RequiredKeys, "did");
    assert "handle" in TrimObject(t, v, RequiredKeys);
    if handle.JStr? {
      KeepsRequiredScalar(t, v, RequiredKeys, "handle");
    }
    if banner.JStr? && banner.s != "" {
      KeepsString(t, v, RequiredKeys, "banner");
    }
  }

  /** A person fails only on a non-dict image before the first featured one
      (AttributeError), a URL that is not a string (AttributeError), or a username other
      than a string or list that '@domain' is appended to (TypeError). */
  lemma PersonErrors(env: Env, obj: Json)
    requires ValidEnv(env) && Converts(obj) && CaseOf(obj) == PersonBranch
    ensures var o := Target(obj.fields).fields;
      var url := ActorUrl(env, o);
      var username := Get(o, "username");
      && (Banner(env.getList(o, "image")).Err? ==> FromAs1(env, obj) == Err(AttributeError))
      && (Banner(env.getList(o, "image")).Ok? && !url.JStr? ==> FromAs1(env, obj) == Err(AttributeError))
      && ((&& Banner(env.getList(o, "image")).Ok? && url.JStr? && env.urllib.urlparse(url.s).netloc != ""
           && Truthy(username) && !username.JStr? && !username.JArr?)
          ==> FromAs1(env, obj) == Err(TypeError))
  {
    UntrimmedPerson(env, obj);
    var o := Target(obj.fields).fields;
    BannerErrorIsAttributeError(env.getList(o, "image"));
  }

  /** The only error the banner search raises is AttributeError. */
  lemma {:induction false} BannerErrorIsAttributeError(images: seq<Json>)
    ensures Banner(images).Err? ==> Banner(images).error == AttributeError
  {
    if images != [] && images[0].JObj? && !IsFeatured(images[0]) {
      BannerErrorIsAttributeError(images[1..]);
    }
  }

  /** The post's reply reference points root and parent at the replied-to URL. */
  ghost predicate RepliesTo(reply: Json, uri: string) {
    && reply.JObj?
    && "root" in reply.fields && reply.fields["root"].JObj?
    && "parent" in reply.fields && reply.fields["parent"].JObj?
    && Get(reply.fields["root"].fields, "uri") == JStr(uri)
    && Get(reply.fields["parent"].fields, "uri") == JStr(uri)
  }

  /** A reply reference survives trimming with root and parent pointing at its URL. */
  lemma TrimmedReply(t: (Json, set<string>) -> Json, uri: string, keep: set<string>)
    requires TrimsNulls(t) && uri != ""
    ensures t(ReplyRef(uri), keep).JObj? && "$type" in t(ReplyRef(uri), keep).fields
    ensures RepliesTo(t(ReplyRef(uri), keep), uri)
  {
    var reply := ReplyRef(uri).fields;
    KeepsString(t, reply, keep, "$type");
    KeepsTyped(t, reply, keep, "root");
    KeepsTyped(t, reply, keep, "parent");
    KeepsString(t, reply["root"].fields, keep, "uri");
    KeepsString(t, reply["parent"].fields, keep, "uri");
  }

  /** trim_nulls leaves a 0 counter in place. */
  lemma KeepsZero(t: (Json, set<string>) -> Json, m: map<string, Json>, keep: set<string>, k: string)
    requires TrimsNulls(t) && k in m && m[k] == JInt(0)
    ensures Get(TrimObject(t, m, keep), k) == JInt(0)
  {
    assert t(m[k], keep) == JInt(0);
  }

  /** A record dict with a string '$type' and 'text', a required 'createdAt' and a reply
      reference under 'reply' exactly when `uri` is non-empty keeps all of them when
      trimmed. */
  lemma TrimmedRecordMap(t: (Json, set<string>) -> Json, rm: map<string, Json>, keep: set<string>, uri: string, text: string)
    requires TrimsNulls(t) && "createdAt" in keep && "createdAt" in rm
    requires Get(rm, "$type") == JStr(PostType) && Get(rm, "text") == JStr(text)
    requires ("reply" in rm <==> uri != "") && (uri != "" ==> rm["reply"] == ReplyRef(uri))
    ensures var record := TrimObject(t, rm, keep);
      && Get(record, "$type") == JStr(PostType)
      && (text != "" ==> Get(record, "text") == JStr(text))
      && "createdAt" in record && record["createdAt"] == t(rm["createdAt"], keep)
      && ("reply" in record <==> uri != "")
      && (uri != "" ==> RepliesTo(record["reply"], uri))
  {
    KeepsString(t, rm, keep, "$type");
    if text != "" {
      KeepsString(t, rm, keep, "text");
    }
    if uri != "" {
      TrimmedReply(t, uri, keep);
    }
  }

  /** The trimmed record: its '$type' is post, its text is the rendered text, createdAt is
      the object's published time ('' when it has none), trimmed in turn, and it has a
      reply reference exactly when inReplyTo has a URL, root and parent both pointing at
      it. */
  lemma TrimmedRecord(env: Env, o: map<string, Json>, text: string, entities: seq<Json>, embed: Json)
    requires TrimsNulls(env.trimNulls)
    ensures var record := TrimObject(env.trimNulls, PostRecord(env, o, text, entities, embed), RequiredKeys);
      var inReplyTo := env.getUrl(o, Some("inReplyTo"));
      var published := if "published" in o then o["published"] else JStr("");
      && Get(record, "$type") == JStr(PostType)
      && Get(record, "text") == JStr(text)
      && "createdAt" in record && record["createdAt"] == env.trimNulls(published, RequiredKeys)
      && (IsScalar(published) ==> record["createdAt"] == published)
      && ("reply" in record <==> inReplyTo != "")
      && (inReplyTo != "" ==> RepliesTo(record["reply"], inReplyTo))
  {
    var t := env.trimNulls;
    var rm := PostRecord(env, o, text, entities, embed);
    TrimmedRecordMap(t, rm, RequiredKeys, env.getUrl(o, Some("inReplyTo")), text);
    KeepsRequiredScalar(t, rm, RequiredKeys, "text");
    var published := if "published" in o then o["published"] else JStr("");
    assert rm["createdAt"] == published;
    if IsScalar(published) {
      assert t(published, RequiredKeys) == published;
    }
  }

  /** A postView dict keeps its '$type', its four 0 counters and its record, the record
      trimmed in turn. */
  lemma TrimmedPostView(t: (Json, set<string>) -> Json, pm: map<string, Json>, keep: set<string>)
    requires TrimsNulls(t)
    requires Get(pm, "$type") == JStr(PostViewType)
    requires Get(pm, "replyCount") == Get(pm, "repostCount") == JInt(0)
    requires Get(pm, "upvoteCount") == Get(pm, "downvoteCount") == JInt(0)
    requires "record" in pm && pm["record"].JObj? && Get(pm["record"].fields, "$type") == JStr(PostType)
    ensures var post := TrimObject(t, pm, keep);
      && Get(post, "$type") == JStr(PostViewType)
      && Get(post, "replyCount") == Get(post, "repostCount") == JInt(0)
      && Get(post, "upvoteCount") == Get(post, "downvoteCount") == JInt(0)
      && "record" in post
      && post["record"] == JObj(TrimObject(t, pm["record"].fields, keep))
  {
    KeepsString(t, pm, keep, "$type");
    KeepsZero(t, pm, keep, "replyCount");
    KeepsZero(t, pm, keep, "repostCount");
    KeepsZero(t, pm, keep, "upvoteCount");
    KeepsZero(t, pm, keep, "downvoteCount");
    KeepsTyped(t, pm, keep, "record");
  }

  /** The trimmed feedViewPost: a postView holding the trimmed record, with the four
      counters 0. */
  lemma TrimmedFeedViewPost(env: Env, o: map<string, Json>, text: string, entities: seq<Json>, embeds: Embeds, author: Json)
    requires TrimsNulls(env.trimNulls)
    ensures var r := TrimObject(env.trimNulls, FeedViewPost(env, o, text, entities, embeds, author), RequiredKeys);
      && Get(r, "$type") == JStr(FeedViewPostType)
      && "post" in r && r["post"].JObj?
      && var post := r["post"].fields;
      && Get(post, "$type") == JStr(PostViewType)
      && Get(post, "replyCount") == Get(post, "repostCount") == JInt(0)
      && Get(post, "upvoteCount") == Get(post, "downvoteCount") == JInt(0)
      && "record" in post
      && post["record"] == JObj(TrimObject(env.trimNulls, PostRecord(env, o, text, entities, embeds.record), RequiredKeys))
  {
    var m := FeedViewPost(env, o, text, entities, embeds, author);
    PostViewFields(env, o, text, entities, embeds, author);
    RecordType(env, o, text, entities, embeds.record);
    TrimmedFeedView(env.trimNulls, m, RequiredKeys);
    TrimmedPostView(env.trimNulls, m["post"].fields, RequiredKeys);
  }

  /** What the untrimmed postView holds: the record, the presented embed and the four
      counters 0. */
  lemma PostViewFields(env: Env, o: map<string, Json>, text: string, entities: seq<Json>, embeds: Embeds, author: Json)
    ensures var pm := PostView(env, o, text, entities, embeds, author);
      && Get(pm, "$type") == JStr(PostViewType)
      && Get(pm, "replyCount") == Get(pm, "repostCount") == JInt(0)
      && Get(pm, "upvoteCount") == Get(pm, "downvoteCount") == JInt(0)
      && "record" in pm && pm["record"] == JObj(PostRecord(env, o, text, entities, embeds.record))
      && "embed" in pm && pm["embed"] == embeds.post
      && "author" in pm && pm["author"] == author
  {
  }

  /** The untrimmed record's '$type' is post, and it holds the entities and the embed. */
  lemma RecordType(env: Env, o: map<string, Json>, text: string, entities: seq<Json>, embed: Json)
    ensures var rm := PostRecord(env, o, text, entities, embed);
      && Get(rm, "$type") == JStr(PostType)
      && "entities" in rm && rm["entities"] == JArr(entities)
      && "embed" in rm && rm["embed"] == embed
  {
  }

  /** A feedViewPost dict keeps its '$type' and its postView, trimmed as a postView. */
  lemma TrimmedFeedView(t: (Json, set<string>) -> Json, m: map<string, Json>, keep: set<string>)
    requires TrimsNulls(t)
    requires "$type" in m && m["$type"] == JStr(FeedViewPostType) && "post" in m && m["post"].JObj?
    requires var pm := m["post"].fields;
      && Get(pm, "$type") == JStr(PostViewType)
      && Get(pm, "replyCount") == Get(pm, "repostCount") == JInt(0)
      && Get(pm, "upvoteCount") == Get(pm, "downvoteCount") == JInt(0)
      && "record" in pm && pm["record"].JObj? && Get(pm["record"].fields, "$type") == JStr(PostType)
    ensures var r := TrimObject(t, m, keep);
      && Get(r, "$type") == JStr(FeedViewPostType)
      && "post" in r && r["post"] == JObj(TrimObject(t, m["post"].fields, keep))
  {
    KeepsString(t, m, keep, "$type");
    KeepsTyped(t, m, keep, "post");
  }

  /** A converted post is the trimmed feedViewPost of its text, entities, embeds and
      author. */
  lemma PostShape(env: Env, obj: Json)
    requires ValidEnv(env) && Converts(obj) && CaseOf(obj) == PostBranch && FromAs1(env, obj).Ok?
    ensures var activity := obj.fields;
      var o := Target(activity).fields;
      var entities := Entities(env, env.getList(o, "tags"), Get(o, "content"), IsHtml(env, o));
      && entities.Ok?
      && var embeds := PostEmbeds(env.getList(o, "image"), entities.value);
      && embeds.Ok? && AuthorView(env, activity, o).Ok?
      && FromAs1(env, obj).value ==
           TrimObject(env.trimNulls, FeedViewPost(env, o, PostText(env, o), entities.value, embeds.value, AuthorView(env, activity, o).value), RequiredKeys)
  {
    UntrimmedPost(env, obj);
  }

  /** A did as from_as1 writes one: none, '' or a string did_web_to_url accepts. */
  predicate WrittenDid(u: Urllib, did: Json) {
    did == JNull || (did.JStr? && (did.s == "" || DidWebToUrl(u, did.s).Ok?))
  }

  /** trim_nulls keeps a written did under the required key 'did' as it is. */
  lemma KeepsWrittenDid(t: (Json, set<string>) -> Json, u: Urllib, m: map<string, Json>)
    requires TrimsNulls(t) && WrittenDid(u, Get(m, "did"))
    ensures Get(TrimObject(t, m, RequiredKeys), "did") == Get(m, "did")
  {
    if "did" in m && m["did"].JStr? {
      KeepsRequiredScalar(t, m, RequiredKeys, "did");
    }
  }

  /** Whatever from_as1 returns carries a written did or none. */
  lemma {:induction false} ConvertedDid(env: Env, obj: Json)
    requires ValidEnv(env) && FromAs1(env, obj).Ok?
    ensures WrittenDid(env.urllib, Get(FromAs1(env, obj).value, "did"))
    decreases Rank(obj), 1
  {
    UntrimmedDid(env, obj);
    KeepsWrittenDid(env.trimNulls, env.urllib, Untrimmed(env, obj).value);
  }

  /** Before trimming too: a profile's did comes from url_to_did_web, a repost keeps the
      did of what it reposts, and follows and posts have no 'did'. */
  lemma {:induction false} UntrimmedDid(env: Env, obj: Json)
    requires ValidEnv(env) && Untrimmed(env, obj).Ok?
    ensures WrittenDid(env.urllib, Get(Untrimmed(env, obj).value, "did"))
    decreases Rank(obj), 0
  {
    ConvertsWhenOk(env, obj);
    match CaseOf(obj)
    case ShareBranch =>
      FieldRanksLower(obj.fields, "object");
      ConvertedDid(env, Get(obj.fields, "object"));
      RepostDid(env, obj);
    case PersonBranch => ProfileDid(env, obj);
    case FollowBranch => NoDid(env, obj);
    case PostBranch => NoDid(env, obj);
  }

  /** A repost has the did of the object it reposts. */
  lemma RepostDid(env: Env, obj: Json)
    requires ValidEnv(env) && Converts(obj) && CaseOf(obj) == ShareBranch && Untrimmed(env, obj).Ok?
    ensures FromAs1(env, Get(obj.fields, "object")).Ok?
    ensures Get(Untrimmed(env, obj).value, "did") == Get(FromAs1(env, Get(obj.fields, "object")).value, "did")
  {
    UntrimmedShare(env, obj);
    RepostValue(env, obj.fields);
  }

  /** A profile's did is url_to_did_web's result, or '' when that fails. */
  lemma ProfileDid(env: Env, obj: Json)
    requires ValidEnv(env) && Converts(obj) && CaseOf(obj) == PersonBranch && Untrimmed(env, obj).Ok?
    ensures WrittenDid(env.urllib, Get(Untrimmed(env, obj).value, "did"))
  {
    UntrimmedPerson(env, obj);
    DidIsDidWeb(env.urllib, ActorUrl(env, Target(obj.fields).fields).s);
  }

  /** Follows and posts have no 'did'. */
  lemma NoDid(env: Env, obj: Json)
    requires ValidEnv(env) && Converts(obj) && Untrimmed(env, obj).Ok?
    requires CaseOf(obj) == FollowBranch || CaseOf(obj) == PostBranch
    ensures "did" !in Untrimmed(env, obj).value
  {
    if CaseOf(obj) == FollowBranch {
      UntrimmedFollow(env, obj);
    } else {
      UntrimmedPost(env, obj);
    }
  }
}
