/** The library helpers the converters call but whose code is not modelled:
    urllib.parse (urlparse, quote, unquote), util.get_url, util.get_list,
    util.trim_nulls, util.now, as1.get_object, as1.ACTOR_TYPES,
    Source._content_for_create, Source.truncate and Python's int().
    Each is a function-valued field of `Env`; what the converters rely on is the
    ghost predicate `ValidEnv`, stated from the helpers' documented behaviour. */
module Helpers {
  import opened Json
  import opened Errors

  /** What urllib.parse.urlparse yields that the converters use. */
  datatype UrlParts = UrlParts(scheme: string, netloc: string, path: string)

  datatype Urllib = Urllib(
    urlparse: string -> UrlParts,
    quote: string -> string,
    unquote: string -> string)

  /** Properties of urllib.parse relied on:
      unquote undoes quote; quote escapes ':' (it keeps only '/' unescaped among the
      reserved characters); unquote leaves a string without '%' alone; and the path of
      a URL with a network location is empty or starts with '/'. */
  ghost predicate ValidUrllib(u: Urllib) {
    && (forall s :: u.unquote(u.quote(s)) == s)
    && (forall s :: ':' !in u.quote(s))
    && (forall s :: '%' !in s ==> u.unquote(s) == s)
    && (forall url :: UrlPathIsRooted(u.urlparse(url)))
  }

  predicate UrlPathIsRooted(p: UrlParts) {
    p.netloc == "" || p.path == "" || p.path[0] == '/'
  }

  datatype Env = Env(
    urllib: Urllib,
    getUrl: (map<string, Json>, Option<string>) -> string,   // util.get_url(obj[, key]); '' for None
    getList: (map<string, Json>, string) -> seq<Json>,        // util.get_list(obj, key)
    getObject: (map<string, Json>, string) -> map<string, Json>,  // as1.get_object(obj, key)
    trimNulls: (Json, set<string>) -> Json,                   // util.trim_nulls(value, ignore)
    contentForCreate: map<string, Json> -> string,            // Source._content_for_create(obj)
    truncate: (string, nat) -> string,                        // Source.truncate(text, None, OMIT_LINK)
    toInt: Json -> Option<int>,                               // int(x), None where it raises
    actorTypes: set<string>,                                  // as1.ACTOR_TYPES
    now: string)                                              // util.now().isoformat()

  /** The recursion measure of from_as1: twice the height, plus one for a dict that
      holds an 'actor' or 'author' key. */
  ghost function Rank(j: Json): nat {
    2 * Height(j) + (if j.JObj? && ("actor" in j.fields || "author" in j.fields) then 1 else 0)
  }

  /** as1.get_object returns {} for a missing field, the field's dict (or the first
      dict of a list), or {'id': s} for a string s. In every case a non-empty result
      ranks below the object it was taken from. */
  ghost predicate GetObjectShrinks(g: (map<string, Json>, string) -> map<string, Json>) {
    && (forall m :: g(m, "actor") == map[] || Rank(JObj(g(m, "actor"))) < Rank(JObj(m)))
    && (forall m :: g(m, "author") == map[] || Rank(JObj(g(m, "author"))) < Rank(JObj(m)))
  }

  /** The list trim_nulls makes of `xs`: every item trimmed, empty ones dropped, order kept. */
  function KeptItems(t: (Json, set<string>) -> Json, xs: seq<Json>, keep: set<string>): (r: seq<Json>)
    ensures |r| <= |xs|
  {
    if xs == [] then []
    else
      var head := t(xs[0], keep);
      (if IsEmpty(head) then [] else [head]) + KeptItems(t, xs[1..], keep)
  }

  /** trim_nulls(value, ignore): scalars come back unchanged; a dict keeps exactly the
      keys whose trimmed value is non-empty or that are in `ignore`, each holding its
      trimmed value; a list keeps its non-empty trimmed items in order. */
  ghost predicate TrimsNulls(t: (Json, set<string>) -> Json) {
    && (forall j, keep :: IsScalar(j) ==> t(j, keep) == j)
    && (forall m, keep {:trigger TrimmedObject(t, m, keep, t(JObj(m), keep))} :: TrimmedObject(t, m, keep, t(JObj(m), keep)))
    && (forall xs, keep :: t(JArr(xs), keep) == JArr(KeptItems(t, xs, keep)))
  }

  ghost predicate TrimmedObject(t: (Json, set<string>) -> Json, m: map<string, Json>, keep: set<string>, r: Json) {
    && r.JObj?
    && (forall k :: k in r.fields ==> k in m && r.fields[k] == t(m[k], keep) && (k in keep || !IsEmpty(r.fields[k])))
    && (forall k :: k in m && (k in keep || !IsEmpty(t(m[k], keep))) ==> k in r.fields)
  }

  /** trim_nulls applied to a dict, as a dict: exactly the keys that are kept, each
      holding its trimmed value. */
  function TrimObject(t: (Json, set<string>) -> Json, m: map<string, Json>, keep: set<string>): (r: map<string, Json>)
    requires TrimsNulls(t)
    ensures JObj(r) == t(JObj(m), keep)
    ensures forall k :: k in r <==> k in m && (k in keep || !IsEmpty(t(m[k], keep)))
    ensures forall k :: k in r ==> r[k] == t(m[k], keep)
  {
    assert TrimmedObject(t, m, keep, t(JObj(m), keep));
    t(JObj(m), keep).fields
  }

  /** A dict whose members trimming leaves as they are, and none of which it would drop,
      is its own trim. */
  lemma TrimFixedObject(t: (Json, set<string>) -> Json, m: map<string, Json>, keep: set<string>)
    requires TrimsNulls(t)
    requires forall k :: k in m ==> t(m[k], keep) == m[k] && (k in keep || !IsEmpty(m[k]))
    ensures t(JObj(m), keep) == JObj(m)
  {
    var r := TrimObject(t, m, keep);
    assert r.Keys == m.Keys;
    assert r == m;
  }

  /** A dict that is its own trim has members trimming leaves as they are, none of which
      it would drop. */
  lemma TrimmedMembers(t: (Json, set<string>) -> Json, m: map<string, Json>, keep: set<string>)
    requires TrimsNulls(t) && TrimObject(t, m, keep) == m
    ensures forall k :: k in m ==> t(m[k], keep) == m[k] && (k in keep || !IsEmpty(m[k]))
  {
  }

  /** trim_nulls keeps a non-empty string as it is. */
  lemma KeepsString(t: (Json, set<string>) -> Json, m: map<string, Json>, keep: set<string>, k: string)
    requires TrimsNulls(t) && k in m && m[k].JStr? && m[k].s != ""
    ensures k in TrimObject(t, m, keep) && TrimObject(t, m, keep)[k] == m[k]
  {
    assert t(m[k], keep) == m[k];
  }

  /** int(x) turns an int into itself and raises on None, a list or a dict. */
  ghost predicate IntCoercion(toInt: Json -> Option<int>) {
    && (forall i :: toInt(JInt(i)) == Some(i))
    && toInt(JNull) == None
    && (forall xs :: toInt(JArr(xs)) == None)
    && (forall m :: toInt(JObj(m)) == None)
  }

  ghost predicate ValidEnv(env: Env) {
    && ValidUrllib(env.urllib)
    && GetObjectShrinks(env.getObject)
    && TrimsNulls(env.trimNulls)
    && IntCoercion(env.toInt)
    && env.now != ""   // isoformat() of a datetime is never empty
  }

  /** Trimming a trimmed document changes nothing. */
  lemma {:induction false} TrimIdempotent(t: (Json, set<string>) -> Json, j: Json, keep: set<string>)
    requires TrimsNulls(t)
    ensures t(t(j, keep), keep) == t(j, keep)
    decreases j, 1
  {
    match j
    case JObj(m) =>
      assert TrimmedObject(t, m, keep, t(JObj(m), keep));
      var r := t(JObj(m), keep).fields;
      assert TrimmedObject(t, r, keep, t(JObj(r), keep));
      var r2 := t(JObj(r), keep).fields;
      forall k | k in r
        ensures t(r[k], keep) == r[k]
      {
        TrimIdempotent(t, m[k], keep);
      }
      assert r2.Keys == r.Keys;
      assert r2 == r;
    case JArr(xs) =>
      forall x | x in xs
        ensures t(t(x, keep), keep) == t(x, keep)
      {
        TrimIdempotent(t, x, keep);
      }
      KeptItemsIdempotent(t, xs, keep);
    case _ =>
  }

  /** A list whose items are each fixed points of trimming is trimmed once and for all. */
  lemma {:induction false} KeptItemsIdempotent(t: (Json, set<string>) -> Json, xs: seq<Json>, keep: set<string>)
    requires forall x | x in xs :: t(t(x, keep), keep) == t(x, keep)
    ensures KeptItems(t, KeptItems(t, xs, keep), keep) == KeptItems(t, xs, keep)
  {
    if xs != [] {
      var head := t(xs[0], keep);
      var rest := KeptItems(t, xs[1..], keep);
      KeptItemsIdempotent(t, xs[1..], keep);
      if !IsEmpty(head) {
        var k := [head] + rest;
        assert k[0] == head && k[1..] == rest;
        assert t(head, keep) == head by { assert xs[0] in xs; }
      } else {
        assert KeptItems(t, xs, keep) == rest;
      }
    }
  }
}
