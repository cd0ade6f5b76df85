# granary Bluesky conversion, modelled in Dafny

This project models the conversion core of granary's Bluesky support (`granary/bluesky.py`):

- the did:web codec: `url_to_did_web` turns a URL into a `did:web:` identifier, and `did_web_to_url` resolves one back to an https URL;
- `from_as1`, which turns an ActivityStreams 1.0 (AS1) object or activity into an AT Protocol `app.bsky.*` object:
  - a person becomes an `app.bsky.actor.defs#profileView`;
  - a note, article, mention or comment becomes an `app.bsky.feed.feedViewPost` around a `postView` and its `app.bsky.feed.post` record;
  - a share becomes the shared object plus a repost reason;
  - a follow becomes an `app.bsky.graph.follow`;
- `as1_to_profile`, which turns an AS1 actor into an `app.bsky.actor.profile` record;
- `to_as1`, the way back from `app.bsky.*` objects to AS1.

JSON documents are the datatype `Json`:
- Python's `None` is `JNull`.
- A dict is a `map<string, Json>`. A missing key and a key that holds `None` stay distinct, because `d.get(k, default)` tells them apart.

Every exception the converters can raise is an `Error` carried in a `Result`:
- `ValueError` carries the reason its message names.
- The model also raises `AssertionError`, `NotImplementedError`, `AttributeError` and `TypeError`.

The library helpers the code calls are function-valued fields of the record `Env`: `urllib.parse`, `util.get_url`, `util.get_list`, `util.trim_nulls`, `util.now`, `as1.get_object`, `as1.ACTOR_TYPES`, `Source._content_for_create`, `Source.truncate` and `int()`. What the converters rely on from each helper is stated as the predicate `ValidEnv`:
- `unquote` undoes `quote`, and `quote` escapes ':';
- the path of a URL that has a host is empty or starts with '/';
- `trim_nulls` keeps scalars as they are, and drops empty members except the keys it is told to keep;
- `int()` returns ints unchanged and raises on None, lists and dicts;
- a non-empty `get_object` result is smaller than the object it came from.

Everything proved holds for every helper that satisfies these properties.

The model follows the code's form:
- The three loops that build a value step by step are methods, each proved equal to a recursive specification function: the banner search, the tag-to-entity loop of `from_as1` and the entity-to-tag loop of `to_as1`. So is the field-popping loop of `as1_to_profile`.
- The dict-building branches and the recursion of both converters are functions.

Modules:
- `Json`, `Errors`, `Helpers` and `Lexicon` hold the data model, the exceptions, the helper contracts and the lexicon type names.
- `DidWeb` holds the did:web codec.
- `ProfileViews` and `Posts` hold the person and post branches of `from_as1`; `Forward` holds the rest of it.
- `Profiles` holds `as1_to_profile`, and `Reverse` holds `to_as1`.
- `ForwardProperties` and `ReverseProperties` hold what is proved about the two converters, including three round trips between them: a follow's actor, a person's URL, and a post (its note, URL and author).
- `PostProperties` holds what is proved about a converted post's output: its entities, its image embeds, its record fields, and the tag errors that abort it.

Notes on the code:
- `did_web_to_url` always writes a '/' after the host. So 'did:web:foo.com' resolves to 'https://foo.com/', not to the 'https://foo.com' its docstring shows. The model follows the code.
- Only `ValueError`, `IndexError` and `TypeError` are caught in the tag loop. So the `NotImplementedError` raised for HTML text with a non-zero start index ends the whole `from_as1` call.
- `from_as1` writes link embeds as `app.bsky.embed.external#presented`, which `to_as1` does not convert. So a postView carrying such an embed does not convert back.
- `from_as1` can raise `AssertionError` in its follow branch, when the activity has no actor.
- A link tag whose startIndex `int()` rejects gets the index {'start': None, 'end': None} (granary/bluesky.py:181-190). `trim_nulls` then drops that index as empty, because 'index' is not among the keys it keeps. So `to_as1` calls `.get` on None (granary/bluesky.py:356-357) and raises AttributeError. This happens even when the post has images, so that no link embed is written: such a post does not convert back.

## Model

| member | source | states |
|---|---|---|
| DidWeb.UrlToDidWeb | granary/bluesky.py:16-41 | raises ValueError naming the URL exactly when the URL has no network location; a did it returns never ends in ':' |
| DidWeb.DidWebToUrl | granary/bluesky.py:44-71 | raises ValueError naming the did exactly when the string does not start with 'did:web:' (the empty string included); otherwise returns an https URL |
| DidWeb.UrlToDidWebShape | granary/bluesky.py:33-41 | the did is 'did:web:', the quoted host, then the path with '/' turned into ':' cut just before its run of trailing ':' (so strip(':') removes exactly those and never touches the host); a path not ending in '/' or ':' is kept whole |
| DidWeb.DecodeHost | granary/bluesky.py:59-71 | a did with no ':' after the prefix resolves to https://, the unquoted host and '/' |
| DidWeb.DecodeHostPath | granary/bluesky.py:62-71 | the host ends at the first ':'; the rest, with ':' turned back into '/', is unquoted into the path |
| DidWeb.EncodeWithPath | granary/bluesky.py:33-41 | a URL whose path does not end in '/' becomes the quoted host, ':' and the path after its leading '/' with every '/' turned into ':' |
| DidWeb.DecodeEncoded | granary/bluesky.py:62-71 | resolving the did of a host and a path free of ':' and '%' gives back https://host/path |
| DidWeb.RoundTrip | granary/bluesky.py:16-71 | for a URL with a host and a path free of ':' and '%' (a longer path without a trailing '/'): did_web_to_url(url_to_did_web(url)) is https://, the host, then the path, or '/' when the path is empty |
| DidWeb.RoundTripHostOnly | granary/bluesky.py:16-71 | with an empty path or the path '/', the did is the prefix and the quoted host, and it resolves to https://host/ |
| DidWeb.RoundTripWithPath | granary/bluesky.py:16-71 | with a longer path, the round trip gives back https://host followed by exactly the original path |
| DidWeb.ResolveHostOnly | granary/bluesky.py:44-71 | 'did:web:foo.com' resolves to 'https://foo.com/', with the trailing '/' that the docstring example omits |
| ProfileViews.FindBanner | granary/bluesky.py:101-107 | the banner loop with its early break returns exactly the banner function's result |
| ProfileViews.BannerIsFirstFeatured | granary/bluesky.py:102-107 | once every earlier image is a dict that is not featured: the first featured image decides the banner (its url), and the first non-dict decides it as AttributeError |
| ProfileViews.BannerAbsent | granary/bluesky.py:102-107 | without a featured image, the banner is None |
| ProfileViews.DidIsDidWeb | granary/bluesky.py:109-114 | the profile's did is '' exactly when the URL has no host; otherwise it starts with 'did:web:' and the quoted host |
| ProfileViews.ProfileView | granary/bluesky.py:100-143 | fails exactly when the banner search fails, the actor URL (get_url's result, else the id, else '') is not a string, or the handle cannot be built; otherwise the dict has exactly '$type' profileView, displayName, description (the summary), avatar (the image URL), banner, did (url_to_did_web's result, '' on ValueError) and handle |
| ProfileViews.HandleFromUsername | granary/bluesky.py:120-123 | a string username becomes username@domain when the URL has a domain |
| ProfileViews.HandleFromUrl | granary/bluesky.py:124-129 | without a username, the handle is the domain followed by the path, just the domain when the path is '' or '/', and '' without a URL |
| Json.PySlice | granary/bluesky.py:180 | a Python slice is never longer than what it slices, and equals Dafny's slice when both bounds are in range |
| Posts.Entities | granary/bluesky.py:170-191 | there are never more entities than tags |
| Posts.BuildEntities | granary/bluesky.py:170-191 | the tag loop, appending one entity per tag with a url, returns exactly the entities function's result, including its first error |
| Posts.TagEntityOfTag | granary/bluesky.py:172-191 | a tag yields an entity exactly when its url is truthy; that entity is the link entity with the url as value and, when int() reads startIndex and length and the content can be sliced, start = int(startIndex), end = start + int(length) and text = content[start:end], else start, end and text all None |
| Posts.EntitiesFollowTags | granary/bluesky.py:170-191 | the entities correspond one to one, in order, to the tags that are dicts with a truthy url, each entity being exactly its tag's link entity (value, type, start, end and text as above) |
| Posts.HtmlIndexRaises | granary/bluesky.py:176-178 | on HTML-derived text, a tag with a truthy url whose startIndex int() reads as a non-zero integer raises NotImplementedError |
| Posts.UnparsableIndexKeepsUrl | granary/bluesky.py:175-182 | a startIndex that int() rejects, or (on plain text) a length that int() rejects, gives an entity that keeps the url, with None as start, end and text |
| Posts.EntitiesFirstError | granary/bluesky.py:172-191 | when every tag before the i-th converts and the i-th raises, the tag loop raises that tag's error: nothing but ValueError, IndexError and TypeError is caught |
| Posts.EntitiesAreLinks | granary/bluesky.py:183-191 | every entity is a dict of type 'link' |
| Posts.PostEmbeds | granary/bluesky.py:194-232 | fails exactly when one of the first four images is not a dict; with images, both embeds are typed as images; without images but with entities, both are typed as external; with neither, both are None |
| Posts.EmbeddedImages | granary/bluesky.py:195-213 | both image embeds hold the first min(4, n) images in order: the presented form with thumb and fullsize set to the url, the record form with image set to the url, both with the displayName as alt |
| Posts.EmbeddedLinks | granary/bluesky.py:214-232 | without images, each external embed has one link per entity, in order, with the entity's value as uri and its text as title |
| Forward.FollowRecord | granary/bluesky.py:153-159 | the follow branch fails its assert exactly when there is no actor; otherwise it builds exactly '$type' follow, subject (the actor's id when truthy, else its url) and createdAt (published, or '') |
| Forward.FromAs1 | granary/bluesky.py:74-288 | from_as1 fails exactly when building the untrimmed dict fails, with the same error; what it returns is a profileView, a feedViewPost or a follow |
| Forward.Untrimmed | granary/bluesky.py:90-278 | every dict the branches build has one of the three produced '$type's |
| Forward.Repost | granary/bluesky.py:145-151 | a repost keeps a produced '$type' |
| Forward.Post | granary/bluesky.py:161-275 | a converted post is a feedViewPost |
| ForwardProperties.NonDictRaises | granary/bluesky.py:90-96 | a value that is not a dict, or whose converted object is not a dict, raises AttributeError |
| ForwardProperties.UnsupportedRaises | granary/bluesky.py:277-278 | an objectType and verb outside the four branches raise ValueError naming both |
| ForwardProperties.FollowNeedsActor | granary/bluesky.py:153-154 | a follow fails exactly when the activity has no actor, and then with AssertionError |
| ForwardProperties.BranchType | granary/bluesky.py:100-278 | a successful conversion is of a dict in one of the four branches; person gives profileView, follow gives follow, post gives feedViewPost, and a share has the '$type' of the converted shared object |
| ForwardProperties.FixedBranchType | granary/bluesky.py:100-259 | the person, follow and post branches produce profileView, follow and feedViewPost respectively |
| ForwardProperties.ShareType | granary/bluesky.py:145-151 | a repost converts its shared object successfully and has that object's '$type' |
| ForwardProperties.ConvertsWhenOk | granary/bluesky.py:90-278 | only a dict whose converted object is a dict, in one of the four branches, converts successfully |
| ForwardProperties.ConvertedIsTrimmed | granary/bluesky.py:280-288 | trimming from_as1's result again changes nothing |
| ForwardProperties.ReasonKeepsTrim | granary/bluesky.py:145-151 | adding the repost reason to a trimmed object, with a trimmed reposter and a non-empty clock reading, gives a dict that trimming leaves alone |
| ForwardProperties.RepostWrapsObject | granary/bluesky.py:145-151 | after trim_nulls, a repost is still the converted shared object plus a reason of type reasonRepost whose 'by' is the converted actor and whose indexedAt is the clock reading |
| ForwardProperties.PersonProfile | granary/bluesky.py:100-143 | a person converts whenever its URL is a string, no image before the first featured one is a non-dict, and its username (if any) is a string or list; the result is a profileView whose did is url_to_did_web's result ('' on ValueError) and which always has a handle; a string handle and a non-empty banner are kept as built |
| ForwardProperties.TrimmedProfileView | granary/bluesky.py:280-288 | trimming a profileView keeps its '$type', its did and its handle, even empty, plus a non-empty banner |
| ForwardProperties.PersonErrors | granary/bluesky.py:100-130 | a person fails with AttributeError on a non-dict image before the first featured one, AttributeError on a URL that is not a string, and TypeError on a username other than a string or list when '@domain' is appended to it |
| ForwardProperties.BannerErrorIsAttributeError | granary/bluesky.py:102-107 | the banner search raises only AttributeError |
| ForwardProperties.TrimmedReply | granary/bluesky.py:261-275 | a reply reference survives trim_nulls, with root and parent both pointing at the replied-to URL |
| ForwardProperties.TrimmedRecordMap | granary/bluesky.py:241-275 | a record keeps its '$type', a non-empty text and createdAt when trimmed, and has a reply reference exactly when there is a reply URL |
| ForwardProperties.TrimmedRecord | granary/bluesky.py:241-275 | the trimmed record is typed post, holds the rendered text, holds createdAt as the trimmed published value ('' without one, and published itself when it is a scalar), and has a reply exactly when inReplyTo has a URL, with root and parent pointing at it |
| ForwardProperties.TrimmedPostView | granary/bluesky.py:237-258 | trimming a postView keeps its '$type', the four 0 counters and its record, itself trimmed |
| ForwardProperties.TrimmedFeedViewPost | granary/bluesky.py:235-259 | the trimmed feedViewPost holds a postView with the four counters 0 and the trimmed post record |
| ForwardProperties.TrimmedFeedView | granary/bluesky.py:235-259 | trimming a feedViewPost keeps its '$type' and its postView, trimmed in turn |
| PostProperties.PostEntities | granary/bluesky.py:170-191 | in a converted post, the record holds 'entities' exactly when some tag is a dict with a truthy url; then it holds one entity per such tag, in order, each being its tag's link entity, trimmed |
| PostProperties.PostImages | granary/bluesky.py:193-213 | in a converted post with images, the postView's embed is typed images#presented and holds the presented form of the first min(4, n) images, and the record's embed is typed images and holds their record form, each trimmed and in order |
| PostProperties.PostLinks | granary/bluesky.py:214-232 | in a converted post without images but with link tags, the postView's embed is typed external#presented and the record's embed external, each holding one link per entity, in order and trimmed, with the entity's value as uri and its text as title |
| PostProperties.ImageUrlKept | granary/bluesky.py:197-212 | an image with a non-empty string url keeps it, after trimming, as thumb and fullsize of the presented image and as image of the record image |
| PostProperties.PostRecordOut | granary/bluesky.py:241-275 | in a converted post, the record is typed post, holds the rendered text, holds createdAt as the published value ('' without one), and has a reply exactly when inReplyTo has a URL |
| PostProperties.PostAuthor | granary/bluesky.py:234-251 | in a converted post, the postView has no author when get_object finds none; otherwise from_as1 of the author succeeds and the postView holds that result retyped as a profileViewBasic, trimmed |
| PostProperties.TagErrorAborts | granary/bluesky.py:170-191 | when every tag before the i-th converts and the i-th raises, from_as1 raises that error: the post is not built |
| PostProperties.HtmlIndexAborts | granary/bluesky.py:176-178 | on HTML-derived text, the first tag (after tags that convert) with a truthy url and a non-zero start makes from_as1 raise NotImplementedError |
| Profiles.Profile | granary/bluesky.py:291-311 | a profile exists only for a dict whose objectType is an actor type; it is typed app.bsky.actor.profile and has none of did, handle, indexedAt, labels and viewer |
| Profiles.As1ToProfile | granary/bluesky.py:291-311 | as1_to_profile, with its pop loop, returns exactly the profile function's result, errors included |
| Profiles.PopFields | granary/bluesky.py:308-309 | popping each dropped field leaves every other field, and only those, with its value |
| Profiles.ProfileIsView | granary/bluesky.py:304-311 | a profile comes from a from_as1 result typed profileView, and has that result's value for every field except '$type' and the dropped ones |
| Profiles.ProfileErrors | granary/bluesky.py:300-305 | a non-dict raises AttributeError; an objectType outside the actor types raises ValueError naming it; from_as1's error passes through; and a from_as1 result that is not a profileView raises AssertionError |
| Profiles.PersonPassesAssert | granary/bluesky.py:304-305 | for a person, as1_to_profile succeeds exactly when from_as1 does, and otherwise fails with from_as1's error |
| Reverse.LoopItems | granary/bluesky.py:354 | a `for` loop whose body calls `.get` visits a list's items; an empty string or dict gives no items; a non-empty string or dict raises AttributeError; None, numbers and booleans raise TypeError |
| Reverse.LinkTag | granary/bluesky.py:356-363 | fails exactly when the index is not a dict (AttributeError) or its start or end is not a number (TypeError); otherwise the tag has url, startIndex and length, with startIndex + length == end |
| Reverse.Tags | granary/bluesky.py:353-363 | there are never more tags than entities |
| Reverse.BuildTags | granary/bluesky.py:353-363 | the entity loop, appending a tag per link entity, returns exactly the tags function's result, including its first error |
| Reverse.DidUrl | granary/bluesky.py:342-349 | the url is None without a did; a did that is not a string raises AttributeError; otherwise it is did_web_to_url's result, failing exactly when that fails |
| Reverse.ActorToAs1 | granary/bluesky.py:336-350 | a profileView becomes a person with exactly objectType, displayName, summary, image and url; displayName and summary are the view's displayName and description, image is [the avatar] followed by the banner as a featured image when it is truthy, and url is the did's URL |
| Reverse.InReplyTo | granary/bluesky.py:365 | reply.parent.uri is None without a reply, and fails only with AttributeError |
| Reverse.PostToAs1 | granary/bluesky.py:352-373 | fails exactly when the entities loop, the tags or reply.parent.uri fail; otherwise an object with exactly five keys: a comment exactly when the reply URL is truthy (a note otherwise), one inReplyTo entry holding that URL, the text as content, createdAt as published ('' without one), and the tags of the entities |
| Reverse.PresentedImages | granary/bluesky.py:383-387 | fails, with AttributeError, exactly when some image is not a dict; otherwise there is one AS1 image per presented image, its url being the fullsize URL and its displayName the alt text |
| Reverse.ToAs1 | granary/bluesky.py:314-412 | a falsy value becomes {}; a truthy value that is not a dict raises AttributeError; a dict fails exactly when its conversion does |
| Reverse.Converted | granary/bluesky.py:331-410 | a missing or empty '$type' raises ValueError; an unsupported '$type' raises ValueError naming it |
| Reverse.PostViewToAs1 | granary/bluesky.py:375-381 | a converted postView carries the uri as url, and has author and image |
| Reverse.FeedViewPostToAs1 | granary/bluesky.py:389-398 | with a repost reason, the result is a share activity with exactly objectType, verb, object and actor |
| ReverseProperties.ReverseIsTrimmed | granary/bluesky.py:412 | trimming to_as1's result again changes nothing |
| ReverseProperties.TypeErrors | granary/bluesky.py:331-333 | a dict without '$type' raises ValueError, and so does one whose '$type' is not converted, naming it |
| ReverseProperties.TagsOfLinks | granary/bluesky.py:353-363 | the tags succeed exactly when every entity is a dict and every link's tag succeeds; they are then the link entities' tags, one to one and in order |
| ReverseProperties.TrimInReplyTo | granary/bluesky.py:370 | the inReplyTo list stays when its URL is a non-empty string, and trims to [] when the URL is None |
| ReverseProperties.TrimmedNote | granary/bluesky.py:367-373 | a trimmed note keeps its objectType; it keeps inReplyTo exactly when the URL is a non-empty string, and loses it when the URL is None |
| ReverseProperties.CommentIffReply | granary/bluesky.py:365-373 | a post record comes back as a comment exactly when reply.parent.uri is truthy, and as a note otherwise; inReplyTo is kept for a URL and absent for None |
| ReverseProperties.RepostBecomesShare | granary/bluesky.py:389-398 | a repost comes back as a share activity whose object is the converted post and whose actor is the converted reposter, whenever these are not empty |
| ReverseProperties.FeedViewPostBack | granary/bluesky.py:389-398 | a feedViewPost without a repost reason comes back exactly as to_as1 of its post (the final trim_nulls changes nothing); a truthy reason that is not a dict raises AttributeError once the post converts |
| ReverseProperties.PostViewCarries | granary/bluesky.py:375-381 | a postView comes back with its author and embed converted, and its uri as url, whenever these are not empty |
| ReverseProperties.ExternalEmbedUnsupported | granary/bluesky.py:409-410 | the link embed that from_as1 writes, external#presented, raises ValueError in to_as1 |
| ReverseProperties.LinkEmbedBlocksPostView | granary/bluesky.py:375-381 | so a postView with a link embed fails to convert back, even when its record and author convert |
| ReverseProperties.FollowConverted | granary/bluesky.py:153-159 | a follow whose actor has a string id converts to a follow record whose subject is that id |
| ReverseProperties.FollowBack | granary/bluesky.py:400-412 | a follow record with a string subject comes back as a follow activity whose actor's url is the subject |
| ReverseProperties.TrimmedFollow | granary/bluesky.py:400-412 | a follow activity keeps its verb, and keeps an actor whose url is a non-empty string |
| ReverseProperties.FollowRoundTrip | granary/bluesky.py:153-159 | from_as1 and then to_as1 of a follow give a follow activity whose actor's url is the original actor's id |
| ReverseProperties.ProfileBack | granary/bluesky.py:336-350 | a profileView whose did resolves comes back as a person whose url is the resolved URL |
| ReverseProperties.ProfileUrlRoundTrip | granary/bluesky.py:109-114 | from_as1 and then to_as1 of a person give back its URL as https://host followed by the path, or by '/' for an empty path, for paths with no ':' or '%' whose last character, beyond a lone '/', is not '/' |
| ForwardProperties.ConvertedDid | granary/bluesky.py:74-288 | whatever from_as1 converts has no did, the did '', or a did that did_web_to_url resolves |
| ReverseProperties.TaggableTags | granary/bluesky.py:353-363 | the entity loop of to_as1 succeeds on dicts whose links each carry an index with numeric start and end |
| ReverseProperties.TrimmedEntityTaggable | granary/bluesky.py:183-191 | a link entity whose index holds int start and end is still, after trim_nulls, a link whose tag to_as1 builds |
| ReverseProperties.RecordTaggable | granary/bluesky.py:170-191 | when int() reads every link tag's startIndex and length and the content slices there, the record's trimmed entities are ones to_as1 turns into tags |
| ReverseProperties.RecordBack | granary/bluesky.py:352-373 | the post record from_as1 writes comes back as a comment exactly when the post replies to a URL (a note otherwise), with the rendered text as content, the replied-to URL as inReplyTo and a scalar published as published |
| ReverseProperties.PostViewBack | granary/bluesky.py:375-381 | adding url, author and image to the record's note keeps objectType, content, inReplyTo and published, and an absent author leaves none |
| ReverseProperties.ShownImagesBack | granary/bluesky.py:383-387 | the images#presented embed from_as1 writes converts back |
| ReverseProperties.AuthorBack | granary/bluesky.py:336-350 | an author from_as1 converted, retyped as profileViewBasic and trimmed, comes back as a person whose url is did_web_to_url of its did |
| ReverseProperties.PostFeedShape | granary/bluesky.py:235-259 | a converted post is a feedViewPost without a reason, holding a postView that holds the record |
| ReverseProperties.PostEmbedBack | granary/bluesky.py:193-232 | the postView's embed converts back when the post has images or no link tag |
| ReverseProperties.PostNoEmbed | granary/bluesky.py:193-232 | a post with neither images nor link tags has no embed after trim_nulls |
| ReverseProperties.PostAuthorBack | granary/bluesky.py:234-251 | the postView's author converts back: absent when the post has none, else a person whose url is did_web_to_url of the did from_as1 gave the author |
| ReverseProperties.PostUriKept | granary/bluesky.py:237-239 | the postView keeps the post's URL as its uri when that URL is not empty |
| ReverseProperties.FeedBack | granary/bluesky.py:389-398 | to_as1 of the feedViewPost from_as1 writes is to_as1 of its postView |
| ReverseProperties.PostViewRoundTrip | granary/bluesky.py:375-381 | a postView shaped as from_as1 writes it, with a readable record, embed and author, comes back as the post's note with its URL and author |
| ReverseProperties.PostRoundTrip | granary/bluesky.py:161-398 | from_as1 and then to_as1 of a post succeed and give a comment exactly when it replies to a URL (a note otherwise), its rendered text as content, its published time as published ('' without one), the replied-to URL as inReplyTo, its URL as url, and its author as a person whose url is did_web_to_url of the author's did (no author when it has none); for posts with images or no link tag whose every link tag's index reads |

## Left out

- Floating-point JSON numbers are not modelled: documents hold ints, booleans, strings, lists, dicts and None.
- Logging is not modelled: the `logging.info` call when url_to_did_web fails has no observable effect on the result.
- The clock: `util.now().isoformat()` is one non-empty string, `now`, in `Env`.
- The `from_url` parameter of from_as1 is not modelled; the code never uses it.
- The code of the library helpers is not part of this model; their behaviour is assumed as the contract `ValidEnv`. This covers urllib.parse, util.get_url, util.get_list, util.trim_nulls, as1.get_object, Source._content_for_create, Source.truncate and int().
- The Bluesky class is left out, except `TRUNCATE_TEXT_LENGTH` (256, as `Posts.TruncateTextLength`), which the post text is truncated to.
- as1.get_object is assumed to return a dict.
- util.get_url is assumed to return a string ('' for None). A truthy non-string URL would reach url_to_did_web and urlparse (granary/bluesky.py:108-118) and raise an error that is not caught there. The model cannot produce that error. A non-string id, used when get_url gives nothing, is modelled and raises AttributeError.
- `urllib.parse.urlparse` is modelled as total: it never raises. For a malformed URL such as 'http://[x' the real parser raises ValueError. In url_to_did_web that error is caught. In the person branch, though, the second urlparse call (granary/bluesky.py:118) is not guarded, so the error would end from_as1. The model cannot produce that error.
- An unhashable objectType, which would make `type not in as1.ACTOR_TYPES` raise TypeError, is treated as not an actor type.
- Iterating a non-empty string or dict where the code expects a list of dicts fails at its first item. The model raises that item's AttributeError without modelling dict iteration order.
- Error message texts are not modelled; each ValueError carries the values its message names.
- A person's list username: `handle += '@domain'` extends the list in the input object as well as building the handle. That mutation of the caller's object is not modelled.
- Profiles.Profile: its contract does not itself relate the profile to from_as1's result; that relation is the lemma Profiles.ProfileIsView.
- Forward.Untrimmed, Forward.Repost and Forward.Post: their own contracts state only the '$type'. What the branches build is stated elsewhere. ForwardProperties.PersonProfile states a person's did, handle and banner. RepostWrapsObject states the repost. Forward.FollowRecord states the follow. For a post, the PostProperties lemmas state the entities, the image and external embeds, the record's $type, text, createdAt and reply, and the author. The postView's uri is stated by ReverseProperties.PostUriKept; its cid and indexedAt are not stated after trimming.
- Reverse.PostViewToAs1 and Reverse.FeedViewPostToAs1: their own contracts state only the keys. The values are stated by ReverseProperties.PostViewCarries, by RepostBecomesShare for a repost, and by FeedViewPostBack otherwise.
- ReverseProperties.PostRoundTrip: holds only for a post with images or without link tags, because the link embed from_as1 writes does not convert back (ReverseProperties.ExternalEmbedUnsupported). It also requires that int() reads every link tag's startIndex and length and that the content slices there; otherwise to_as1 fails on the trimmed index, as the notes above describe.
- ReverseProperties.PostRoundTrip: states published only when the post's published is a scalar. It does not state the tags or images that come back, nor the author's fields other than objectType and url.
