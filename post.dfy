/** The post branch of from_as1 (granary/bluesky.py:161-275): an AS1 note, article,
    mention or comment becomes an app.bsky.feed.feedViewPost holding a postView and its
    app.bsky.feed.post record, before trim_nulls. */
module Posts {
  import opened Json
  import opened Errors
  import opened Helpers
  import opened Lexicon

  /** Bluesky.TRUNCATE_TEXT_LENGTH */
  const TruncateTextLength: nat := 256

  /** At most this many images are embedded. */
  const MaxImages: nat := 4

  /** `content[start:end]` for the tag text: None when there is no content, a slice of a
      string or a list, and `None` (the TypeError the tag loop catches) for content that
      cannot be sliced. */
  function SliceContent(content: Json, start: int, end: int): Option<Json> {
    if !Truthy(content) then Some(JNull)
    else if content.JStr? then Some(JStr(PySlice(content.s, start, end)))
    else if content.JArr? then Some(JArr(PySlice(content.items, start, end)))
    else None
  }

  /** One link entity: {'type': 'link', 'value', 'text', 'index': {'start', 'end'}}. */
  function LinkEntity(url: Json, text: Json, start: Json, end: Json): Json {
    JObj(map[
      "type" := JStr("link"),
      "value" := url,
      "text" := text,
      "index" := JObj(map["start" := start, "end" := end])])
  }

  /** The entity one tag yields, None for a tag without a truthy url. Where int() of the
      start or length raises, or the content cannot be sliced, start, end and text are all
      None. HTML-derived text with a non-zero start raises NotImplementedError, which the
      tag loop does not catch. */
  function TagEntity(env: Env, tag: Json, content: Json, isHtml: bool): Result<Option<Json>> {
    if !tag.JObj? then Err(AttributeError)
    else
      var url := Get(tag.fields, "url");
      if !Truthy(url) then Ok(None)
      else
        var start := env.toInt(Get(tag.fields, "startIndex"));
        if start.Some? && isHtml && start.value != 0 then Err(NotImplementedError)
        else
          var length := if start.Some? then env.toInt(Get(tag.fields, "length")) else None;
          var text := if length.Some? then SliceContent(content, start.value, start.value + length.value) else None;
          if text.None? then Ok(Some(LinkEntity(url, JNull, JNull, JNull)))
          else Ok(Some(LinkEntity(url, text.value, JInt(start.value), JInt(start.value + length.value))))
  }

  /** The entities list, one entity per tag with a url, in tag order. */
  function Entities(env: Env, tags: seq<Json>, content: Json, isHtml: bool): (r: Result<seq<Json>>)
    ensures r.Ok? ==> |r.value| <= |tags|
  {
    if tags == [] then Ok([])
    else
      var e :- TagEntity(env, tags[0], content, isHtml);
      var rest :- Entities(env, tags[1..], content, isHtml);
      Ok((if e.Some? then [e.value] else []) + rest)
  }

  /** `prefix` followed by the entities of a successful result; a failure stays one. */
  function Prepend(prefix: seq<Json>, r: Result<seq<Json>>): Result<seq<Json>> {
    if r.Ok? then Ok(prefix + r.value) else r
  }

  lemma EntitiesUnfold(env: Env, tags: seq<Json>, content: Json, isHtml: bool)
    requires tags != []
    ensures var e := TagEntity(env, tags[0], content, isHtml);
      Entities(env, tags, content, isHtml) ==
        if e.Err? then Err(e.error)
        else Prepend(if e.value.Some? then [e.value.value] else [], Entities(env, tags[1..], content, isHtml))
  {
  }

  lemma PrependTwice(a: seq<Json>, b: seq<Json>, r: Result<seq<Json>>)
    ensures Prepend(a, Prepend(b, r)) == Prepend(a + b, r)
  {
    if r.Ok? {
      assert a + (b + r.value) == (a + b) + r.value;
    }
  }

  /** One turn of the tag loop: a failing tag decides the whole result, any other adds its
      entity, if it has one, to those already collected. */
  lemma EntitiesStep(env: Env, tags: seq<Json>, content: Json, isHtml: bool, i: nat, done: seq<Json>)
    requires i < |tags|
    requires Entities(env, tags, content, isHtml) == Prepend(done, Entities(env, tags[i..], content, isHtml))
    ensures var e := TagEntity(env, tags[i], content, isHtml);
      Entities(env, tags, content, isHtml) ==
        if e.Err? then Err(e.error)
        else Prepend(done + (if e.value.Some? then [e.value.value] else []), Entities(env, tags[i + 1..], content, isHtml))
  {
    assert tags[i..][1..] == tags[i + 1..];
    EntitiesUnfold(env, tags[i..], content, isHtml);
    var e := TagEntity(env, tags[i], content, isHtml);
    if e.Ok? {
      PrependTwice(done, if e.value.Some? then [e.value.value] else [], Entities(env, tags[i + 1..], content, isHtml));
    }
  }

  /** The tag loop, appending to `entities`. */
  method BuildEntities(env: Env, tags: seq<Json>, content: Json, isHtml: bool) returns (r: Result<seq<Json>>)
    ensures r == Entities(env, tags, content, isHtml)
  {
    var entities: seq<Json> := [];
    var i := 0;
    assert tags[0..] == tags;
    if Entities(env, tags, content, isHtml).Ok? {
      assert [] + Entities(env, tags, content, isHtml).value == Entities(env, tags, content, isHtml).value;
    }
    while i < |tags|
      invariant 0 <= i <= |tags|
      invariant Entities(env, tags, content, isHtml) == Prepend(entities, Entities(env, tags[i..], content, isHtml))
    {
      EntitiesStep(env, tags, content, isHtml, i, entities);
      var e := TagEntity(env, tags[i], content, isHtml);
      if e.Err? {
        return Err(e.error);
      }
      entities := entities + if e.value.Some? then [e.value.value] else [];
      i := i + 1;
    }
    assert tags[i..] == [];
    assert entities + [] == entities;
    return Ok(entities);
  }

  /** The tags that yield an entity: dicts whose url is truthy, in order. */
  function LinkTags(tags: seq<Json>): (r: seq<Json>)
    ensures |r| <= |tags|
  {
    if tags == [] then []
    else (if tags[0].JObj? && Truthy(Get(tags[0].fields, "url")) then [tags[0]] else []) + LinkTags(tags[1..])
  }

  /** A tag yields an entity exactly when it is a dict with a truthy url, and that entity
      is the tag's link entity. */
  lemma TagEntityOfTag(env: Env, tag: Json, content: Json, isHtml: bool)
    requires IntCoercion(env.toInt)
    requires TagEntity(env, tag, content, isHtml).Ok?
    ensures var e := TagEntity(env, tag, content, isHtml).value;
      && (e.Some? <==> Truthy(Get(tag.fields, "url")))
      && (e.Some? ==> EntityOfTag(env, tag, e.value, content))
  {
  }

  /** Putting a tag's entity, if any, in front of entities that follow their link tags
      keeps them following, with the tag in front of the link tags when it has one. */
  lemma FollowsCons(env: Env, tag: Json, e: Option<Json>, rest: seq<Json>, links: seq<Json>, content: Json)
    requires e.Some? ==> EntityOfTag(env, tag, e.value, content)
    requires |rest| == |links|
    requires forall i :: 0 <= i < |rest| ==> EntityOfTag(env, links[i], rest[i], content)
    ensures var es := (if e.Some? then [e.value] else []) + rest;
      var ls := (if e.Some? then [tag] else []) + links;
      && |es| == |ls|
      && forall i :: 0 <= i < |es| ==> EntityOfTag(env, ls[i], es[i], content)
  {
    var es := (if e.Some? then [e.value] else []) + rest;
    var ls := (if e.Some? then [tag] else []) + links;
    forall i | 0 <= i < |es|
      ensures EntityOfTag(env, ls[i], es[i], content)
    {
      if e.Some? && i > 0 {
        assert es[i] == rest[i - 1] && ls[i] == links[i - 1];
      } else if e.None? {
        assert es[i] == rest[i] && ls[i] == links[i];
      }
    }
  }

  /** Each tag with a url yields one link entity carrying that url, in tag order; and an
      entity whose index is known has end == start + length and text == content[start:end]. */
  lemma {:induction false} EntitiesFollowTags(env: Env, tags: seq<Json>, content: Json, isHtml: bool)
    requires IntCoercion(env.toInt)
    requires Entities(env, tags, content, isHtml).Ok?
    ensures var es := Entities(env, tags, content, isHtml).value;
      var links := LinkTags(tags);
      && |es| == |links|
      && forall i :: 0 <= i < |es| ==> EntityOfTag(env, links[i], es[i], content)
  {
    if tags != [] {
      EntitiesFollowTags(env, tags[1..], content, isHtml);
      TagEntityOfTag(env, tags[0], content, isHtml);
      var e := TagEntity(env, tags[0], content, isHtml).value;
      FollowsCons(env, tags[0], e, Entities(env, tags[1..], content, isHtml).value, LinkTags(tags[1..]), content);
    }
  }

  /** Every entity is a dict of type 'link'. */
  lemma EntitiesAreLinks(env: Env, tags: seq<Json>, content: Json, isHtml: bool)
    requires IntCoercion(env.toInt)
    requires Entities(env, tags, content, isHtml).Ok?
    ensures var es := Entities(env, tags, content, isHtml).value;
      forall i :: 0 <= i < |es| ==> es[i].JObj? && Get(es[i].fields, "type") == JStr("link")
  {
    EntitiesFollowTags(env, tags, content, isHtml);
  }

  /** `e` is the link entity of `tag`: type 'link', value the tag's url, and, when
      int(startIndex) and int(length) succeed and the content can be sliced, start ==
      int(startIndex), end == start + int(length) and text == content[start:end];
      otherwise no index and no text. */
  ghost predicate EntityOfTag(env: Env, tag: Json, e: Json, content: Json) {
    && tag.JObj?
    && var url := Get(tag.fields, "url");
    && var start := env.toInt(Get(tag.fields, "startIndex"));
    && var length := env.toInt(Get(tag.fields, "length"));
    && e.JObj? && "type" in e.fields && "value" in e.fields && "text" in e.fields && "index" in e.fields
    && e.fields["type"] == JStr("link")
    && e.fields["value"] == url
    && var index := e.fields["index"];
    && index.JObj? && "start" in index.fields && "end" in index.fields
    && if start.Some? && length.Some? && SliceContent(content, start.value, start.value + length.value).Some? then
         && index.fields["start"] == JInt(start.value)
         && index.fields["end"] == JInt(start.value + length.value)
         && SliceContent(content, start.value, start.value + length.value) == Some(e.fields["text"])
       else
         index.fields["start"] == JNull && index.fields["end"] == JNull && e.fields["text"] == JNull
  }

  /** On HTML-derived text, a tag whose url is truthy and whose start int() reads as a
      non-zero integer raises NotImplementedError. */
  lemma HtmlIndexRaises(env: Env, tag: map<string, Json>, content: Json)
    requires Truthy(Get(tag, "url"))
    requires env.toInt(Get(tag, "startIndex")).Some? && env.toInt(Get(tag, "startIndex")).value != 0
    ensures TagEntity(env, JObj(tag), content, true) == Err(NotImplementedError)
  {
  }

  /** The tag loop catches nothing a tag raises: the first failing tag's error is the
      loop's. */
  lemma {:induction false} EntitiesFirstError(env: Env, tags: seq<Json>, content: Json, isHtml: bool, i: nat)
    requires i < |tags|
    requires forall j :: 0 <= j < i ==> TagEntity(env, tags[j], content, isHtml).Ok?
    requires TagEntity(env, tags[i], content, isHtml).Err?
    ensures Entities(env, tags, content, isHtml) == Err(TagEntity(env, tags[i], content, isHtml).error)
  {
    if i > 0 {
      assert forall j :: 0 <= j < i - 1 ==> tags[1..][j] == tags[j + 1];
      EntitiesFirstError(env, tags[1..], content, isHtml, i - 1);
    }
  }

  /** A tag whose startIndex or length int() rejects keeps its url but loses its index and
      text. */
  lemma UnparsableIndexKeepsUrl(env: Env, tag: map<string, Json>, content: Json, isHtml: bool)
    requires IntCoercion(env.toInt)
    requires Truthy(Get(tag, "url"))
    requires env.toInt(Get(tag, "startIndex")).None? || (!isHtml && env.toInt(Get(tag, "length")).None?)
    ensures TagEntity(env, JObj(tag), content, isHtml) == Ok(Some(LinkEntity(Get(tag, "url"), JNull, JNull, JNull)))
  {
  }

  /** The two embeds of a post: the postView's presented form and the record's form. */
  datatype Embeds = Embeds(post: Json, record: Json)

  function Min(a: nat, b: nat): nat {
    if a < b then a else b
  }

  function PresentedImage(img: map<string, Json>): Json {
    JObj(map[
      "$type" := JStr(PresentedImageType),
      "thumb" := Get(img, "url"),
      "fullsize" := Get(img, "url"),
      "alt" := Get(img, "displayName")])
  }

  function RecordImage(img: map<string, Json>): Json {
    JObj(map[
      "$type" := JStr(ImageType),
      "image" := Get(img, "url"),
      "alt" := Get(img, "displayName")])
  }

  function External(typ: string, entity: Json): Json {
    var e := if entity.JObj? then entity.fields else map[];
    JObj(map[
      "$type" := JStr(typ),
      "uri" := Get(e, "value"),
      "title" := Get(e, "text"),
      "description" := JStr("")])
  }

  /** The embeds: the first four images, each presented and as a record image; without
      images, one external link per entity; with neither, None. An image among the first
      four that is not a dict raises AttributeError. */
  function PostEmbeds(images: seq<Json>, entities: seq<Json>): (r: Result<Embeds>)
    ensures r.Err? <==> !AllObjects(images[..Min(MaxImages, |images|)])
    ensures r.Ok? && images != [] ==>
      && r.value.post.JObj? && r.value.post.fields.Keys == {"$type", "images"}
      && r.value.post.fields["$type"] == JStr(ImagesPresentedType)
      && r.value.record.JObj? && r.value.record.fields.Keys == {"$type", "images"}
      && r.value.record.fields["$type"] == JStr(ImagesType)
    ensures r.Ok? && images == [] && entities != [] ==>
      && r.value.post.JObj? && Get(r.value.post.fields, "$type") == JStr(ExternalPresentedType)
      && r.value.record.JObj? && Get(r.value.record.fields, "$type") == JStr(ExternalType)
    ensures images == [] && entities == [] ==> r == Ok(Embeds(JNull, JNull))
  {
    if images != [] then
      var shown := images[..Min(MaxImages, |images|)];
      if !AllObjects(shown) then Err(AttributeError)
      else
        Ok(Embeds(
          JObj(map[
            "$type" := JStr(ImagesPresentedType),
            "images" := JArr(seq(|shown|, i requires 0 <= i < |shown| => PresentedImage(shown[i].fields)))]),
          JObj(map[
            "$type" := JStr(ImagesType),
            "images" := JArr(seq(|shown|, i requires 0 <= i < |shown| => RecordImage(shown[i].fields)))])))
    else if entities != [] then
      Ok(Embeds(
        JObj(map[
          "$type" := JStr(ExternalPresentedType),
          "external" := JArr(seq(|entities|, i requires 0 <= i < |entities| => External(PresentedExternalType, entities[i])))]),
        JObj(map[
          "$type" := JStr(ExternalType),
          "external" := JArr(seq(|entities|, i requires 0 <= i < |entities| => External(ExternalItemType, entities[i])))])))
    else Ok(Embeds(JNull, JNull))
  }

  /** Both image embeds hold the first min(4, n) images in input order: the presented one
      with thumb and fullsize set to the image url, the record one with image set to it,
      both with alt set to its displayName. */
  lemma EmbeddedImages(images: seq<Json>, entities: seq<Json>)
    requires images != [] && PostEmbeds(images, entities).Ok?
    ensures var e := PostEmbeds(images, entities).value;
      var shown := e.post.fields["images"];
      var recorded := e.record.fields["images"];
      && shown.JArr? && recorded.JArr?
      && |shown.items| == |recorded.items| == Min(MaxImages, |images|)
      && forall i :: 0 <= i < |shown.items| ==>
        && images[i].JObj?
        && shown.items[i] == PresentedImage(images[i].fields)
        && recorded.items[i] == RecordImage(images[i].fields)
        && Get(shown.items[i].fields, "fullsize") == Get(images[i].fields, "url")
        && Get(recorded.items[i].fields, "image") == Get(images[i].fields, "url")
  {
    var shown := images[..Min(MaxImages, |images|)];
    assert forall i :: 0 <= i < |shown| ==> shown[i] == images[i];
  }

  /** Without images, the external embeds carry one link per entity, in order, with the
      entity's value as uri and its text as title. */
  lemma EmbeddedLinks(entities: seq<Json>)
    requires entities != []
    ensures var e := PostEmbeds([], entities).value;
      var shown := e.post.fields["external"];
      var recorded := e.record.fields["external"];
      && shown.JArr? && recorded.JArr?
      && |shown.items| == |recorded.items| == |entities|
      && forall i :: 0 <= i < |entities| ==> entities[i].JObj? ==>
        && Get(shown.items[i].fields, "uri") == Get(entities[i].fields, "value")
        && Get(shown.items[i].fields, "title") == Get(entities[i].fields, "text")
        && Get(recorded.items[i].fields, "uri") == Get(entities[i].fields, "value")
        && Get(recorded.items[i].fields, "title") == Get(entities[i].fields, "text")
  {
    var e := PostEmbeds([], entities).value;
    var shown := e.post.fields["external"];
    var recorded := e.record.fields["external"];
    forall i | 0 <= i < |entities| && entities[i].JObj?
      ensures Get(shown.items[i].fields, "uri") == Get(entities[i].fields, "value")
      ensures Get(shown.items[i].fields, "title") == Get(entities[i].fields, "text")
      ensures Get(recorded.items[i].fields, "uri") == Get(entities[i].fields, "value")
      ensures Get(recorded.items[i].fields, "title") == Get(entities[i].fields, "text")
    {
      assert shown.items[i] == External(PresentedExternalType, entities[i]);
      assert recorded.items[i] == External(ExternalItemType, entities[i]);
    }
  }

  /** {'$type': strongRef, 'uri': uri, 'cid': 'TODO'} */
  function StrongRef(uri: string): Json {
    JObj(map["$type" := JStr(StrongRefType), "uri" := JStr(uri), "cid" := JStr(PlaceholderCid)])
  }

  /** The record's reply reference: root and parent both point at the replied-to URL. */
  function ReplyRef(uri: string): Json {
    JObj(map["$type" := JStr(ReplyRefType), "root" := StrongRef(uri), "parent" := StrongRef(uri)])
  }

  /** The app.bsky.feed.post record, with a reply reference only when inReplyTo has a URL. */
  function PostRecord(env: Env, o: map<string, Json>, text: string, entities: seq<Json>, embed: Json): map<string, Json> {
    var record := map[
      "$type" := JStr(PostType),
      "text" := JStr(text),
      "createdAt" := GetOr(o, "published", JStr("")),
      "embed" := embed,
      "entities" := JArr(entities)];
    var inReplyTo := env.getUrl(o, Some("inReplyTo"));
    if inReplyTo != "" then record["reply" := ReplyRef(inReplyTo)] else record
  }

  /** The postView: the post's URL, a placeholder cid, the record, the author (or None),
      the embed, counters at 0 and the time of indexing. */
  function PostView(env: Env, o: map<string, Json>, text: string, entities: seq<Json>, embeds: Embeds, author: Json): map<string, Json> {
    map[
      "$type" := JStr(PostViewType),
      "uri" := JStr(env.getUrl(o, None)),
      "cid" := JStr(PlaceholderCid),
      "record" := JObj(PostRecord(env, o, text, entities, embeds.record)),
      "author" := author,
      "embed" := embeds.post,
      "replyCount" := JInt(0),
      "repostCount" := JInt(0),
      "upvoteCount" := JInt(0),
      "downvoteCount" := JInt(0),
      "indexedAt" := JStr(env.now)]
  }

  /** The feedViewPost wrapping the postView; `author` is the converted author or None. */
  function FeedViewPost(env: Env, o: map<string, Json>, text: string, entities: seq<Json>, embeds: Embeds, author: Json): map<string, Json> {
    map["$type" := JStr(FeedViewPostType), "post" := JObj(PostView(env, o, text, entities, embeds, author))]
  }

  /** The text of the record: _content_for_create's rendering, truncated. */
  function PostText(env: Env, o: map<string, Json>): string {
    env.truncate(env.contentForCreate(o), TruncateTextLength)
  }

  /** Whether the rendered text differs from the summary, content or name it came from. */
  function IsHtml(env: Env, o: map<string, Json>): bool {
    JStr(env.contentForCreate(o)) != Or(Or(Get(o, "summary"), Get(o, "content")), Get(o, "name"))
  }
}
