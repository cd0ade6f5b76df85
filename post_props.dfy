/** What from_as1 promises about a converted post, read off its trimmed output: the
    record's entities follow the link tags, the embeds hold the first four images or else
    one link per entity, the record's createdAt is the object's published time, the author
    is the converted author retyped, and a failing tag fails the whole conversion. */
module PostProperties {
  import opened Json
  import opened Errors
  import opened Helpers
  import opened Lexicon
  import opened Posts
  import opened Forward
  import opened ForwardProperties

  /** A list none of whose items trimming empties keeps every item, trimmed, in place. */
  lemma {:induction false} KeptAll(t: (Json, set<string>) -> Json, xs: seq<Json>, keep: set<string>)
    requires forall i :: 0 <= i < |xs| ==> !IsEmpty(t(xs[i], keep))
    ensures |KeptItems(t, xs, keep)| == |xs|
    ensures forall i :: 0 <= i < |xs| ==> KeptItems(t, xs, keep)[i] == t(xs[i], keep)
  {
    if xs != [] {
      assert forall i :: 0 <= i < |xs| - 1 ==> xs[1..][i] == xs[i + 1];
      KeptAll(t, xs[1..], keep);
      assert !IsEmpty(t(xs[0], keep));
      assert KeptItems(t, xs, keep) == [t(xs[0], keep)] + KeptItems(t, xs[1..], keep);
    }
  }

  /** A dict with a non-empty string under `k` keeps it, so trimming never empties it. */
  lemma TrimmedNonEmpty(t: (Json, set<string>) -> Json, j: Json, k: string, keep: set<string>)
    requires TrimsNulls(t) && j.JObj? && k in j.fields && j.fields[k].JStr? && j.fields[k].s != ""
    ensures t(j, keep) == JObj(TrimObject(t, j.fields, keep))
    ensures k in TrimObject(t, j.fields, keep) && !IsEmpty(t(j, keep))
  {
    KeepsString(t, j.fields, keep, k);
  }

  /** A non-empty list of dicts, each with a non-empty string under `key`, survives
      trimming under its key item by item. */
  lemma TrimmedList(t: (Json, set<string>) -> Json, m: map<string, Json>, k: string, key: string, keep: set<string>)
    requires TrimsNulls(t) && k in m && m[k].JArr? && m[k].items != []
    requires forall i :: 0 <= i < |m[k].items| ==>
      var x := m[k].items[i]; x.JObj? && key in x.fields && x.fields[key].JStr? && x.fields[key].s != ""
    ensures var r := TrimObject(t, m, keep);
      && k in r && r[k].JArr? && |r[k].items| == |m[k].items|
      && forall i :: 0 <= i < |m[k].items| ==> r[k].items[i] == t(m[k].items[i], keep)
  {
    var xs := m[k].items;
    forall i | 0 <= i < |xs|
      ensures !IsEmpty(t(xs[i], keep))
    {
      TrimmedNonEmpty(t, xs[i], key, keep);
    }
    KeptAll(t, xs, keep);
    assert t(m[k], keep) == JArr(KeptItems(t, xs, keep));
    assert KeptItems(t, xs, keep)[0] == t(xs[0], keep);
  }

  /** The trimmed feedViewPost holds the trimmed postView, which holds the trimmed record. */
  lemma FeedViewParts(env: Env, o: map<string, Json>, text: string, es: seq<Json>, embeds: Embeds, author: Json)
    requires TrimsNulls(env.trimNulls)
    ensures var t := env.trimNulls;
      var r := TrimObject(t, FeedViewPost(env, o, text, es, embeds, author), RequiredKeys);
      var pm := PostView(env, o, text, es, embeds, author);
      && "post" in r && r["post"] == JObj(TrimObject(t, pm, RequiredKeys))
      && var post := TrimObject(t, pm, RequiredKeys);
      && "record" in post && post["record"] == JObj(TrimObject(t, PostRecord(env, o, text, es, embeds.record), RequiredKeys))
  {
    var t := env.trimNulls;
    var fv := FeedViewPost(env, o, text, es, embeds, author);
    var pm := PostView(env, o, text, es, embeds, author);
    PostViewFields(env, o, text, es, embeds, author);
    RecordType(env, o, text, es, embeds.record);
    assert fv["post"] == JObj(pm);
    TrimmedFeedView(t, fv, RequiredKeys);
    KeepsTyped(t, pm, RequiredKeys, "record");
  }

  /** The postView of a converted post ({} when there is none). */
  function PostOf(r: map<string, Json>): map<string, Json> {
    if "post" in r && r["post"].JObj? then r["post"].fields else map[]
  }

  /** The record of a converted post's postView ({} when there is none). */
  function RecordOf(post: map<string, Json>): map<string, Json> {
    if "record" in post && post["record"].JObj? then post["record"].fields else map[]
  }

  /** The trimmed postView and record of a converted post, in terms of what the post branch
      built before trimming. */
  lemma PostParts(env: Env, obj: Json)
    requires ValidEnv(env) && Converts(obj) && CaseOf(obj) == PostBranch && FromAs1(env, obj).Ok?
    ensures var o := Target(obj.fields).fields;
      var t := env.trimNulls;
      var r := FromAs1(env, obj).value;
      var es := Entities(env, env.getList(o, "tags"), Get(o, "content"), IsHtml(env, o));
      && es.Ok?
      && var embeds := PostEmbeds(env.getList(o, "image"), es.value);
      && embeds.Ok? && AuthorView(env, obj.fields, o).Ok?
      && var pm := PostView(env, o, PostText(env, o), es.value, embeds.value, AuthorView(env, obj.fields, o).value);
      && PostOf(r) == TrimObject(t, pm, RequiredKeys)
      && RecordOf(PostOf(r)) == TrimObject(t, PostRecord(env, o, PostText(env, o), es.value, embeds.value.record), RequiredKeys)
  {
    var o := Target(obj.fields).fields;
    PostShape(env, obj);
    var es := Entities(env, env.getList(o, "tags"), Get(o, "content"), IsHtml(env, o)).value;
    var embeds := PostEmbeds(env.getList(o, "image"), es).value;
    FeedViewParts(env, o, PostText(env, o), es, embeds, AuthorView(env, obj.fields, o).value);
  }

  /** A record's list of link entities survives trimming item by item, and an empty one
      is trimmed away. */
  lemma RecordEntities(t: (Json, set<string>) -> Json, rm: map<string, Json>, es: seq<Json>)
    requires TrimsNulls(t) && "entities" in rm && rm["entities"] == JArr(es)
    requires forall i :: 0 <= i < |es| ==> es[i].JObj? && Get(es[i].fields, "type") == JStr("link")
    ensures var record := TrimObject(t, rm, RequiredKeys);
      && ("entities" in record <==> es != [])
      && (es != [] ==>
            && record["entities"].JArr? && |record["entities"].items| == |es|
            && forall i :: 0 <= i < |es| ==> record["entities"].items[i] == t(es[i], RequiredKeys))
  {
    if es != [] {
      TrimmedList(t, rm, "entities", "type", RequiredKeys);
    } else {
      assert t(JArr([]), RequiredKeys) == JArr([]);
    }
  }

  /** An embed (a '$type' and a non-empty `list` of items, each with its own '$type')
      survives trimming under `k`: its type and each item, trimmed, in place. */
  lemma EmbedKept(t: (Json, set<string>) -> Json, m: map<string, Json>, k: string, embed: map<string, Json>, list: string)
    requires TrimsNulls(t) && k in m && m[k] == JObj(embed)
    requires "$type" in embed && embed["$type"].JStr? && embed["$type"].s != ""
    requires list in embed && embed[list].JArr? && embed[list].items != []
    requires forall i :: 0 <= i < |embed[list].items| ==>
      var x := embed[list].items[i]; x.JObj? && "$type" in x.fields && x.fields["$type"].JStr? && x.fields["$type"].s != ""
    ensures var r := TrimObject(t, m, RequiredKeys);
      && k in r && r[k].JObj? && var e := r[k].fields;
      && Get(e, "$type") == embed["$type"]
      && list in e && e[list].JArr? && |e[list].items| == |embed[list].items|
      && forall i :: 0 <= i < |embed[list].items| ==> e[list].items[i] == t(embed[list].items[i], RequiredKeys)
  {
    KeepsTyped(t, m, RequiredKeys, k);
    TrimmedList(t, embed, list, "$type", RequiredKeys);
  }

  /** A record dict of `o`'s post holds, under 'entities', the entities of the link tags,
      each trimmed, one per dict tag with a truthy url and in tag order, and no
      'entities' at all when there is no such tag. */
  ghost predicate EntitiesKept(env: Env, o: map<string, Json>, record: map<string, Json>) {
    var tags := env.getList(o, "tags");
    var content := Get(o, "content");
    var links := LinkTags(tags);
    var es := Entities(env, tags, content, IsHtml(env, o));
    && es.Ok? && |es.value| == |links|
    && (forall i :: 0 <= i < |links| ==> EntityOfTag(env, links[i], es.value[i], content))
    && ("entities" in record <==> links != [])
    && (links != [] ==>
          && record["entities"].JArr? && |record["entities"].items| == |links|
          && forall i :: 0 <= i < |links| ==> record["entities"].items[i] == env.trimNulls(es.value[i], RequiredKeys))
  }

  /** The trimmed record keeps the entities of the link tags. */
  lemma TrimmedRecordEntities(env: Env, o: map<string, Json>, text: string, embed: Json)
    requires TrimsNulls(env.trimNulls) && IntCoercion(env.toInt)
    requires Entities(env, env.getList(o, "tags"), Get(o, "content"), IsHtml(env, o)).Ok?
    ensures var es := Entities(env, env.getList(o, "tags"), Get(o, "content"), IsHtml(env, o)).value;
      EntitiesKept(env, o, TrimObject(env.trimNulls, PostRecord(env, o, text, es, embed), RequiredKeys))
  {
    var tags := env.getList(o, "tags");
    var es := Entities(env, tags, Get(o, "content"), IsHtml(env, o)).value;
    EntitiesFollowTags(env, tags, Get(o, "content"), IsHtml(env, o));
    EntitiesAreLinks(env, tags, Get(o, "content"), IsHtml(env, o));
    RecordType(env, o, text, es, embed);
    RecordEntities(env.trimNulls, PostRecord(env, o, text, es, embed), es);
  }

  /** A dict holds, under 'embed', the presented form of the first min(4, n) `images`,
      in order and trimmed by `t`. */
  ghost predicate ShownImagesKept(t: (Json, set<string>) -> Json, images: seq<Json>, post: map<string, Json>) {
    var n := Min(MaxImages, |images|);
    && (forall i :: 0 <= i < n ==> images[i].JObj?)
    && "embed" in post && post["embed"].JObj? && var shown := post["embed"].fields;
    && Get(shown, "$type") == JStr(ImagesPresentedType)
    && "images" in shown && shown["images"].JArr? && |shown["images"].items| == n
    && (forall i :: 0 <= i < n ==> shown["images"].items[i] == t(PresentedImage(images[i].fields), RequiredKeys))
  }

  /** A dict holds, under 'embed', the record form of the first min(4, n) `images`, in
      order and trimmed by `t`. */
  ghost predicate RecordedImagesKept(t: (Json, set<string>) -> Json, images: seq<Json>, record: map<string, Json>) {
    var n := Min(MaxImages, |images|);
    && (forall i :: 0 <= i < n ==> images[i].JObj?)
    && "embed" in record && record["embed"].JObj? && var recorded := record["embed"].fields;
    && Get(recorded, "$type") == JStr(ImagesType)
    && "images" in recorded && recorded["images"].JArr? && |recorded["images"].items| == n
    && (forall i :: 0 <= i < n ==> recorded["images"].items[i] == t(RecordImage(images[i].fields), RequiredKeys))
  }

  /** The postView's image embed survives trimming. */
  lemma TrimmedShownImages(t: (Json, set<string>) -> Json, pm: map<string, Json>, images: seq<Json>, es: seq<Json>)
    requires TrimsNulls(t) && images != [] && PostEmbeds(images, es).Ok?
    requires "embed" in pm && pm["embed"] == PostEmbeds(images, es).value.post
    ensures ShownImagesKept(t, images, TrimObject(t, pm, RequiredKeys))
  {
    EmbeddedImages(images, es);
    EmbedKept(t, pm, "embed", PostEmbeds(images, es).value.post.fields, "images");
  }

  /** The record's image embed survives trimming. */
  lemma TrimmedRecordedImages(t: (Json, set<string>) -> Json, rm: map<string, Json>, images: seq<Json>, es: seq<Json>)
    requires TrimsNulls(t) && images != [] && PostEmbeds(images, es).Ok?
    requires "embed" in rm && rm["embed"] == PostEmbeds(images, es).value.record
    ensures RecordedImagesKept(t, images, TrimObject(t, rm, RequiredKeys))
  {
    EmbeddedImages(images, es);
    EmbedKept(t, rm, "embed", PostEmbeds(images, es).value.record.fields, "images");
  }

  /** The trimmed postView of a post with images keeps both image embeds. */
  lemma TrimmedImageEmbeds(env: Env, o: map<string, Json>, text: string, es: seq<Json>, author: Json)
    requires TrimsNulls(env.trimNulls)
    requires env.getList(o, "image") != [] && PostEmbeds(env.getList(o, "image"), es).Ok?
    ensures var t := env.trimNulls;
      var embeds := PostEmbeds(env.getList(o, "image"), es).value;
      var post := TrimObject(t, PostView(env, o, text, es, embeds, author), RequiredKeys);
      && ShownImagesKept(t, env.getList(o, "image"), post)
      && RecordedImagesKept(t, env.getList(o, "image"), RecordOf(post))
  {
    var t := env.trimNulls;
    var images := env.getList(o, "image");
    var embeds := PostEmbeds(images, es).value;
    var pm := PostView(env, o, text, es, embeds, author);
    var rm := PostRecord(env, o, text, es, embeds.record);
    PostViewFields(env, o, text, es, embeds, author);
    RecordType(env, o, text, es, embeds.record);
    KeepsTyped(t, pm, RequiredKeys, "record");
    TrimmedShownImages(t, pm, images, es);
    TrimmedRecordedImages(t, rm, images, es);
  }

  /** A dict holds, under 'embed', one presented external link per entity of `es`, in
      order and trimmed by `t`. */
  ghost predicate ShownLinksKept(t: (Json, set<string>) -> Json, es: seq<Json>, post: map<string, Json>) {
    && "embed" in post && post["embed"].JObj? && var shown := post["embed"].fields;
    && Get(shown, "$type") == JStr(ExternalPresentedType)
    && "external" in shown && shown["external"].JArr? && |shown["external"].items| == |es|
    && (forall i :: 0 <= i < |es| ==> shown["external"].items[i] == t(External(PresentedExternalType, es[i]), RequiredKeys))
  }

  /** A dict holds, under 'embed', one record external link per entity of `es`, in order
      and trimmed by `t`. */
  ghost predicate RecordedLinksKept(t: (Json, set<string>) -> Json, es: seq<Json>, record: map<string, Json>) {
    && "embed" in record && record["embed"].JObj? && var recorded := record["embed"].fields;
    && Get(recorded, "$type") == JStr(ExternalType)
    && "external" in recorded && recorded["external"].JArr? && |recorded["external"].items| == |es|
    && (forall i :: 0 <= i < |es| ==> recorded["external"].items[i] == t(External(ExternalItemType, es[i]), RequiredKeys))
  }

  /** The postView's external embed survives trimming. */
  lemma TrimmedShownLinks(t: (Json, set<string>) -> Json, pm: map<string, Json>, es: seq<Json>)
    requires TrimsNulls(t) && es != []
    requires "embed" in pm && pm["embed"] == PostEmbeds([], es).value.post
    ensures ShownLinksKept(t, es, TrimObject(t, pm, RequiredKeys))
  {
    var shown := PostEmbeds([], es).value.post.fields;
    assert forall i :: 0 <= i < |es| ==> shown["external"].items[i] == External(PresentedExternalType, es[i]);
    EmbedKept(t, pm, "embed", shown, "external");
  }

  /** The record's external embed survives trimming. */
  lemma TrimmedRecordedLinks(t: (Json, set<string>) -> Json, rm: map<string, Json>, es: seq<Json>)
    requires TrimsNulls(t) && es != []
    requires "embed" in rm && rm["embed"] == PostEmbeds([], es).value.record
    ensures RecordedLinksKept(t, es, TrimObject(t, rm, RequiredKeys))
  {
    var recorded := PostEmbeds([], es).value.record.fields;
    assert forall i :: 0 <= i < |es| ==> recorded["external"].items[i] == External(ExternalItemType, es[i]);
    EmbedKept(t, rm, "embed", recorded, "external");
  }

  /** With a link tag among the tags, the tag loop yields at least one entity. */
  lemma LinksGiveEntities(env: Env, tags: seq<Json>, content: Json, isHtml: bool)
    requires IntCoercion(env.toInt) && Entities(env, tags, content, isHtml).Ok? && LinkTags(tags) != []
    ensures Entities(env, tags, content, isHtml).value != []
  {
    EntitiesFollowTags(env, tags, content, isHtml);
  }

  /** The trimmed postView of a post without images but with entities keeps both external
      embeds, one link per entity. */
  lemma TrimmedLinkEmbeds(env: Env, o: map<string, Json>, text: string, es: seq<Json>, author: Json)
    requires TrimsNulls(env.trimNulls) && es != []
    ensures var t := env.trimNulls;
      var post := TrimObject(t, PostView(env, o, text, es, PostEmbeds([], es).value, author), RequiredKeys);
      && ShownLinksKept(t, es, post)
      && RecordedLinksKept(t, es, RecordOf(post))
  {
    var t := env.trimNulls;
    var embeds := PostEmbeds([], es).value;
    var pm := PostView(env, o, text, es, embeds, author);
    var rm := PostRecord(env, o, text, es, embeds.record);
    PostViewFields(env, o, text, es, embeds, author);
    RecordType(env, o, text, es, embeds.record);
    KeepsTyped(t, pm, RequiredKeys, "record");
    TrimmedShownLinks(t, pm, es);
    TrimmedRecordedLinks(t, rm, es);
  }

  /** A dict holds the post's author trimmed, or no author when there is none. */
  ghost predicate AuthorKept(t: (Json, set<string>) -> Json, author: Json, post: map<string, Json>) {
    if author == JNull then "author" !in post
    else "author" in post && post["author"] == t(author, RequiredKeys)
  }

  /** A dict keeps a typed author under 'author' and drops a missing one when trimmed. */
  lemma AuthorEntry(t: (Json, set<string>) -> Json, pm: map<string, Json>, author: Json)
    requires TrimsNulls(t) && "author" in pm && pm["author"] == author
    requires author == JNull || (author.JObj? && Get(author.fields, "$type") == JStr(ProfileViewBasicType))
    ensures AuthorKept(t, author, TrimObject(t, pm, RequiredKeys))
  {
    if author == JNull {
      assert t(JNull, RequiredKeys) == JNull;
    } else {
      KeepsTyped(t, pm, RequiredKeys, "author");
    }
  }

  /** The trimmed postView keeps a typed author and drops a missing one. */
  lemma TrimmedAuthor(env: Env, o: map<string, Json>, text: string, es: seq<Json>, embeds: Embeds, author: Json)
    requires TrimsNulls(env.trimNulls)
    requires author == JNull || (author.JObj? && Get(author.fields, "$type") == JStr(ProfileViewBasicType))
    ensures AuthorKept(env.trimNulls, author, TrimObject(env.trimNulls, PostView(env, o, text, es, embeds, author), RequiredKeys))
  {
    PostViewFields(env, o, text, es, embeds, author);
    AuthorEntry(env.trimNulls, PostView(env, o, text, es, embeds, author), author);
  }

  /** The post's author as the post branch converts it: None without one, otherwise the
      author converted by from_as1 and retyped as a profileViewBasic. */
  lemma AuthorViewValue(env: Env, activity: map<string, Json>, o: map<string, Json>)
    requires ValidEnv(env) && Target(activity) == JObj(o) && AuthorView(env, activity, o).Ok?
    ensures var author := env.getObject(o, "author");
      && (author == map[] ==> AuthorView(env, activity, o).value == JNull)
      && (author != map[] ==>
            && FromAs1(env, JObj(author)).Ok?
            && AuthorView(env, activity, o).value == JObj(FromAs1(env, JObj(author)).value["$type" := JStr(ProfileViewBasicType)]))
  {
  }

  /** The record's entities, after trimming, are the link tags' entities, trimmed, one per
      dict tag with a truthy url and in tag order; with no such tag the empty list is
      trimmed away. */
  lemma PostEntities(env: Env, obj: Json)
    requires ValidEnv(env) && Converts(obj) && CaseOf(obj) == PostBranch && FromAs1(env, obj).Ok?
    ensures EntitiesKept(env, Target(obj.fields).fields, RecordOf(PostOf(FromAs1(env, obj).value)))
  {
    var o := Target(obj.fields).fields;
    PostParts(env, obj);
    var es := Entities(env, env.getList(o, "tags"), Get(o, "content"), IsHtml(env, o)).value;
    var embeds := PostEmbeds(env.getList(o, "image"), es).value;
    TrimmedRecordEntities(env, o, PostText(env, o), embeds.record);
  }

  /** Both embeds of a post with images hold its first min(4, n) images in order: the
      postView's as trimmed presented images, the record's as trimmed record images. */
  lemma PostImages(env: Env, obj: Json)
    requires ValidEnv(env) && Converts(obj) && CaseOf(obj) == PostBranch && FromAs1(env, obj).Ok?
    requires env.getList(Target(obj.fields).fields, "image") != []
    ensures var post := PostOf(FromAs1(env, obj).value);
      var images := env.getList(Target(obj.fields).fields, "image");
      && ShownImagesKept(env.trimNulls, images, post)
      && RecordedImagesKept(env.trimNulls, images, RecordOf(post))
  {
    var o := Target(obj.fields).fields;
    PostParts(env, obj);
    var es := Entities(env, env.getList(o, "tags"), Get(o, "content"), IsHtml(env, o)).value;
    TrimmedImageEmbeds(env, o, PostText(env, o), es, AuthorView(env, obj.fields, o).value);
  }

  /** Trimming an embedded image keeps a non-empty string url as the presented image's
      thumb and fullsize and as the record image's image. */
  lemma ImageUrlKept(t: (Json, set<string>) -> Json, img: map<string, Json>, keep: set<string>)
    requires TrimsNulls(t) && Get(img, "url").JStr? && Get(img, "url").s != ""
    ensures t(PresentedImage(img), keep).JObj? && t(RecordImage(img), keep).JObj?
    ensures Get(t(PresentedImage(img), keep).fields, "thumb") == Get(img, "url")
    ensures Get(t(PresentedImage(img), keep).fields, "fullsize") == Get(img, "url")
    ensures Get(t(RecordImage(img), keep).fields, "image") == Get(img, "url")
  {
    var p := PresentedImage(img).fields;
    var q := RecordImage(img).fields;
    assert t(PresentedImage(img), keep) == JObj(TrimObject(t, p, keep));
    assert t(RecordImage(img), keep) == JObj(TrimObject(t, q, keep));
    KeepsString(t, p, keep, "thumb");
    KeepsString(t, p, keep, "fullsize");
    KeepsString(t, q, keep, "image");
  }

  /** A record dict of `o`'s post: '$type' post, the rendered text, the object's
      published time ('' when it has none) as createdAt, and a reply reference exactly when
      inReplyTo has a URL, root and parent pointing at it. */
  ghost predicate RecordFieldsKept(env: Env, o: map<string, Json>, record: map<string, Json>) {
    var published := if "published" in o then o["published"] else JStr("");
    var inReplyTo := env.getUrl(o, Some("inReplyTo"));
    && Get(record, "$type") == JStr(PostType)
    && Get(record, "text") == JStr(PostText(env, o))
    && "createdAt" in record && record["createdAt"] == env.trimNulls(published, RequiredKeys)
    && (IsScalar(published) ==> record["createdAt"] == published)
    && ("reply" in record <==> inReplyTo != "")
    && (inReplyTo != "" ==> RepliesTo(record["reply"], inReplyTo))
  }

  /** Without images, both embeds of a post with link tags hold one external link per
      entity, in order: the postView's as presented links, the record's as record links. */
  lemma PostLinks(env: Env, obj: Json)
    requires ValidEnv(env) && Converts(obj) && CaseOf(obj) == PostBranch && FromAs1(env, obj).Ok?
    requires var o := Target(obj.fields).fields;
      env.getList(o, "image") == [] && LinkTags(env.getList(o, "tags")) != []
    ensures var o := Target(obj.fields).fields;
      var es := Entities(env, env.getList(o, "tags"), Get(o, "content"), IsHtml(env, o));
      var post := PostOf(FromAs1(env, obj).value);
      && es.Ok?
      && ShownLinksKept(env.trimNulls, es.value, post)
      && RecordedLinksKept(env.trimNulls, es.value, RecordOf(post))
  {
    var o := Target(obj.fields).fields;
    PostParts(env, obj);
    var es := Entities(env, env.getList(o, "tags"), Get(o, "content"), IsHtml(env, o)).value;
    LinksGiveEntities(env, env.getList(o, "tags"), Get(o, "content"), IsHtml(env, o));
    TrimmedLinkEmbeds(env, o, PostText(env, o), es, AuthorView(env, obj.fields, o).value);
  }

  /** The converted post's author: absent when get_object finds none; otherwise from_as1
      of the author succeeds, and the postView holds it, retyped as a profileViewBasic and
      trimmed. */
  lemma PostAuthor(env: Env, obj: Json)
    requires ValidEnv(env) && Converts(obj) && CaseOf(obj) == PostBranch && FromAs1(env, obj).Ok?
    ensures var author := env.getObject(Target(obj.fields).fields, "author");
      var post := PostOf(FromAs1(env, obj).value);
      && (author == map[] ==> "author" !in post)
      && (author != map[] ==>
            && FromAs1(env, JObj(author)).Ok?
            && AuthorKept(env.trimNulls, JObj(FromAs1(env, JObj(author)).value["$type" := JStr(ProfileViewBasicType)]), post))
  {
    var o := Target(obj.fields).fields;
    PostParts(env, obj);
    AuthorViewValue(env, obj.fields, o);
    var es := Entities(env, env.getList(o, "tags"), Get(o, "content"), IsHtml(env, o)).value;
    var embeds := PostEmbeds(env.getList(o, "image"), es).value;
    TrimmedAuthor(env, o, PostText(env, o), es, embeds, AuthorView(env, obj.fields, o).value);
  }

  /** The converted record: '$type' post, the rendered text, the object's published time
      ('' when it has none) as createdAt, and a reply reference exactly when inReplyTo has
      a URL. */
  lemma PostRecordOut(env: Env, obj: Json)
    requires ValidEnv(env) && Converts(obj) && CaseOf(obj) == PostBranch && FromAs1(env, obj).Ok?
    ensures RecordFieldsKept(env, Target(obj.fields).fields, RecordOf(PostOf(FromAs1(env, obj).value)))
  {
    var o := Target(obj.fields).fields;
    PostParts(env, obj);
    var es := Entities(env, env.getList(o, "tags"), Get(o, "content"), IsHtml(env, o)).value;
    var embeds := PostEmbeds(env.getList(o, "image"), es).value;
    TrimmedRecord(env, o, PostText(env, o), es, embeds.record);
  }

  /** A tag whose entity raises, after tags that all convert, fails the whole conversion
      with that error; on HTML-derived text, a tag with a truthy url and a non-zero integer
      start raises NotImplementedError. */
  lemma TagErrorAborts(env: Env, obj: Json, i: nat)
    requires ValidEnv(env) && Converts(obj) && CaseOf(obj) == PostBranch
    requires var o := Target(obj.fields).fields;
      var tags := env.getList(o, "tags");
      && i < |tags|
      && (forall j :: 0 <= j < i ==> TagEntity(env, tags[j], Get(o, "content"), IsHtml(env, o)).Ok?)
      && TagEntity(env, tags[i], Get(o, "content"), IsHtml(env, o)).Err?
    ensures var o := Target(obj.fields).fields;
      FromAs1(env, obj) == Err(TagEntity(env, env.getList(o, "tags")[i], Get(o, "content"), IsHtml(env, o)).error)
  {
    var o := Target(obj.fields).fields;
    EntitiesFirstError(env, env.getList(o, "tags"), Get(o, "content"), IsHtml(env, o), i);
    UntrimmedPost(env, obj);
  }

  /** On HTML-derived text, the first tag with a truthy url and a start int() reads as
      non-zero, after tags that all convert, makes from_as1 raise NotImplementedError. */
  lemma HtmlIndexAborts(env: Env, obj: Json, i: nat)
    requires ValidEnv(env) && Converts(obj) && CaseOf(obj) == PostBranch
    requires var o := Target(obj.fields).fields;
      var tags := env.getList(o, "tags");
      && IsHtml(env, o) && i < |tags|
      && (forall j :: 0 <= j < i ==> TagEntity(env, tags[j], Get(o, "content"), true).Ok?)
      && tags[i].JObj? && Truthy(Get(tags[i].fields, "url"))
      && env.toInt(Get(tags[i].fields, "startIndex")).Some?
      && env.toInt(Get(tags[i].fields, "startIndex")).value != 0
    ensures FromAs1(env, obj) == Err(NotImplementedError)
  {
    var o := Target(obj.fields).fields;
    var tags := env.getList(o, "tags");
    HtmlIndexRaises(env, tags[i].fields, Get(o, "content"));
    TagErrorAborts(env, obj, i);
  }
}
