/** The person branch of from_as1 (granary/bluesky.py:100-143): an AS1 actor becomes an
    app.bsky.actor.defs#profileView, before trim_nulls. */
module ProfileViews {
  import opened Json
  import opened Errors
  import opened Helpers
  import opened DidWeb
  import opened Lexicon

  /** An image that supplies the banner: a dict whose objectType is 'featured' and whose
      url is truthy. */
  predicate IsFeatured(img: Json) {
    img.JObj? && Get(img.fields, "objectType") == JStr("featured") && Truthy(Get(img.fields, "url"))
  }

  /** The banner: the url of the first featured image, None when there is none. An item
      reached before that which is not a dict fails `img.get` with AttributeError. */
  function Banner(images: seq<Json>): Result<Json> {
    if images == [] then Ok(JNull)
    else if !images[0].JObj? then Err(AttributeError)
    else if IsFeatured(images[0]) then Ok(Get(images[0].fields, "url"))
    else Banner(images[1..])
  }

  /** The banner loop, with its early `break`. */
  method FindBanner(images: seq<Json>) returns (r: Result<Json>)
    ensures r == Banner(images)
  {
    var banner := JNull;
    var i := 0;
    while i < |images|
      invariant 0 <= i <= |images|
      invariant banner == JNull
      invariant Banner(images) == Banner(images[i..])
    {
      assert images[i..][1..] == images[i + 1..];
      var img := images[i];
      if !img.JObj? {
        return Err(AttributeError);
      }
      var url := Get(img.fields, "url");
      if Get(img.fields, "objectType") == JStr("featured") && Truthy(url) {
        banner := url;
        break;
      }
      i := i + 1;
    }
    return Ok(banner);
  }

  /** No image before `i` is featured, and all of them are dicts. */
  predicate PassedOver(images: seq<Json>, i: nat)
    requires i <= |images|
  {
    forall j :: 0 <= j < i ==> images[j].JObj? && !IsFeatured(images[j])
  }

  /** The banner is decided by the first image that is featured or not a dict: its url in
      the first case, AttributeError in the second. */
  lemma {:induction false} BannerIsFirstFeatured(images: seq<Json>, i: nat)
    requires i < |images| && PassedOver(images, i)
    ensures IsFeatured(images[i]) ==> Banner(images) == Ok(Get(images[i].fields, "url"))
    ensures !images[i].JObj? ==> Banner(images) == Err(AttributeError)
  {
    if i > 0 {
      assert images[1..][i - 1] == images[i];
      BannerIsFirstFeatured(images[1..], i - 1);
    }
  }

  /** Without a featured image the banner is None. */
  lemma {:induction false} BannerAbsent(images: seq<Json>)
    requires PassedOver(images, |images|)
    ensures Banner(images) == Ok(JNull)
  {
    if images != [] {
      BannerAbsent(images[1..]);
    }
  }

  /** The did of a profile: url_to_did_web's result, or '' when it raises ValueError. */
  function DidOf(u: Urllib, url: string): string {
    var r := UrlToDidWeb(u, url);
    if r.Ok? then r.value else ""
  }

  /** A profile's did is '' or a did:web whose host is the quoted domain of the URL. */
  lemma DidIsDidWeb(u: Urllib, url: string)
    requires ValidUrllib(u)
    ensures var d := DidOf(u, url);
      d == "" <==> u.urlparse(url).netloc == ""
    ensures var d := DidOf(u, url);
      d != "" ==> Prefix + u.quote(u.urlparse(url).netloc) <= d
  {
    var p := u.urlparse(url);
    if p.netloc != "" {
      UrlToDidWebShape(u, url);
      var n :| 0 <= n <= |p.path| &&
        UrlToDidWeb(u, url) == Ok(Prefix + u.quote(p.netloc) + Replace(p.path, '/', ':')[..n]);
    }
  }

  /** A string's characters, as the list `list += str` appends. */
  function Chars(s: string): (r: seq<Json>)
    ensures |r| == |s|
  {
    seq(|s|, i requires 0 <= i < |s| => JStr([s[i]]))
  }

  /** The handle: the username, with '@' and the domain appended when the URL has one;
      without a username, the domain followed by the path unless that is '' or '/';
      without a URL either, ''. Appending to a username that is neither a string nor a
      list raises TypeError. */
  function Handle(u: Urllib, username: Json, url: string): Result<Json> {
    var p := u.urlparse(url);
    if Truthy(username) then
      if p.netloc == "" then Ok(username)
      else if username.JStr? then Ok(JStr(username.s + "@" + p.netloc))
      else if username.JArr? then Ok(JArr(username.items + Chars("@" + p.netloc)))
      else Err(TypeError)
    else if url != "" then
      Ok(JStr(if p.path == "" || p.path == "/" then p.netloc else p.netloc + p.path))
    else Ok(JStr(""))
  }

  /** The URL an actor is known by: util.get_url(obj), else its id, else ''. */
  function ActorUrl(env: Env, o: map<string, Json>): Json {
    Or(Or(JStr(env.getUrl(o, None)), Get(o, "id")), JStr(""))
  }

  /** The profileView dict built for a person, before trim_nulls: the actor's displayName,
      its summary as the description, its image URL as the avatar, the banner, the did of
      its URL and the handle. It fails when the banner search or the handle fails, and
      with AttributeError when the URL is not a string (urlparse needs one). */
  function ProfileView(env: Env, o: map<string, Json>): (r: Result<map<string, Json>>)
    ensures r.Err? <==>
      || Banner(env.getList(o, "image")).Err?
      || !ActorUrl(env, o).JStr?
      || Handle(env.urllib, Get(o, "username"), ActorUrl(env, o).s).Err?
    ensures r.Ok? ==>
      && r.value.Keys == {"$type", "displayName", "description", "avatar", "banner", "did", "handle"}
      && r.value["$type"] == JStr(ProfileViewType)
      && r.value["displayName"] == Get(o, "displayName")
      && r.value["description"] == Get(o, "summary")
      && r.value["avatar"] == JStr(env.getUrl(o, Some("image")))
      && r.value["banner"] == Banner(env.getList(o, "image")).value
      && r.value["did"] == JStr(DidOf(env.urllib, ActorUrl(env, o).s))
      && r.value["handle"] == Handle(env.urllib, Get(o, "username"), ActorUrl(env, o).s).value
  {
    var banner :- Banner(env.getList(o, "image"));
    var url := ActorUrl(env, o);
    if !url.JStr? then Err(AttributeError)
    else
      var handle :- Handle(env.urllib, Get(o, "username"), url.s);
      Ok(map[
        "$type" := JStr(ProfileViewType),
        "displayName" := Get(o, "displayName"),
        "description" := Get(o, "summary"),
        "avatar" := JStr(env.getUrl(o, Some("image"))),
        "banner" := banner,
        "did" := JStr(DidOf(env.urllib, url.s)),
        "handle" := handle])
  }

  /** A string username gets '@domain' when the URL has a domain. */
  lemma HandleFromUsername(u: Urllib, name: string, url: string)
    requires name != "" && u.urlparse(url).netloc != ""
    ensures Handle(u, JStr(name), url) == Ok(JStr(name + "@" + u.urlparse(url).netloc))
  {
  }

  /** Without a username the handle is the domain and path, the bare domain for a path of
      '' or '/', and '' without a URL. */
  lemma HandleFromUrl(u: Urllib, username: Json, url: string)
    requires !Truthy(username)
    ensures var p := u.urlparse(url);
      Handle(u, username, url) ==
        Ok(JStr(if url == "" then "" else if p.path in {"", "/"} then p.netloc else p.netloc + p.path))
  {
  }
}
