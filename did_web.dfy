/** The did:web codec of granary/bluesky.py: url_to_did_web and did_web_to_url,
    following the did:web Method Specification ("Creating the DID" and
    "Read (Resolve)"), with the host percent-encoded as in section 2.1 of RFC 3986. */
module DidWeb {
  import opened Json
  import opened Errors
  import opened Helpers

  const Prefix: string := "did:web:"

  /** `s.replace(a, b)` for single characters. */
  function Replace(s: string, a: char, b: char): string {
    seq(|s|, i requires 0 <= i < |s| => if s[i] == a then b else s[i])
  }

  /** `s.lstrip(c)` */
  function TrimLeading(s: string, c: char): string {
    if s != [] && s[0] == c then TrimLeading(s[1..], c) else s
  }

  /** `s.rstrip(c)` */
  function TrimTrailing(s: string, c: char): string {
    if s != [] && s[|s| - 1] == c then TrimTrailing(s[..|s| - 1], c) else s
  }

  /** `s.strip(c)` */
  function Strip(s: string, c: char): string {
    TrimTrailing(TrimLeading(s, c), c)
  }

  /** The index of the first `c` in `s`. */
  function FirstIndex(s: string, c: char): (i: nat)
    requires c in s
    ensures i < |s| && s[i] == c && c !in s[..i]
  {
    if s[0] == c then 0 else 1 + FirstIndex(s[1..], c)
  }

  /** url_to_did_web: fails with ValueError exactly when the URL has no network location. */
  function UrlToDidWeb(u: Urllib, url: string): (r: Result<string>)
    ensures r.Err? <==> u.urlparse(url).netloc == ""
    ensures r.Err? ==> r.error == ValueError(InvalidUrl(url))
    ensures r.Ok? ==> r.value == [] || r.value[|r.value| - 1] != ':'
  {
    var parsed := u.urlparse(url);
    if parsed.netloc == "" then Err(ValueError(InvalidUrl(url)))
    else
      var did := Prefix + u.quote(parsed.netloc);
      var did' := if parsed.path != "" then did + Replace(parsed.path, '/', ':') else did;
      TrimTrailingEnd(TrimLeading(did', ':'), ':');
      Ok(Strip(did', ':'))
  }

  /** did_web_to_url: fails with ValueError exactly when the string is empty or lacks the
      'did:web:' prefix; otherwise the result is an https URL with a '/' after the host,
      even when the did has no path. */
  function DidWebToUrl(u: Urllib, did: string): (r: Result<string>)
    ensures r.Err? <==> !(Prefix <= did)
    ensures r.Err? ==> r.error == ValueError(InvalidDidWeb(did))
    ensures r.Ok? ==> "https://" <= r.value
  {
    if did == "" || !(Prefix <= did) then Err(ValueError(InvalidDidWeb(did)))
    else
      var rest := did[|Prefix|..];
      var host := if ':' in rest then rest[..FirstIndex(rest, ':')] else rest;
      var path := if ':' in rest then rest[FirstIndex(rest, ':') + 1..] else "";
      Ok("https://" + u.unquote(host) + "/" + u.unquote(Replace(path, ':', '/')))
  }

  lemma {:induction false} TrimTrailingEnd(s: string, c: char)
    ensures var r := TrimTrailing(s, c); r == [] || r[|r| - 1] != c
    decreases |s|
  {
    if s != [] && s[|s| - 1] == c {
      TrimTrailingEnd(s[..|s| - 1], c);
    }
  }

  /** Stripping trailing `c` from `a + b` stops inside `b` when `a` does not end in `c`. */
  lemma {:induction false} TrimTrailingStopsBefore(a: string, b: string, c: char)
    requires a != [] && a[|a| - 1] != c
    ensures exists n ::
      && 0 <= n <= |b| && TrimTrailing(a + b, c) == a + b[..n]
      && (forall i :: n <= i < |b| ==> b[i] == c) && (n == 0 || b[n - 1] != c)
    ensures (b == [] || b[|b| - 1] != c) ==> TrimTrailing(a + b, c) == a + b
    decreases |b|
  {
    var s := a + b;
    if b == [] {
      assert s == a + b[..0];
      assert s[|s| - 1] == a[|a| - 1];
    } else if b[|b| - 1] == c {
      var b' := b[..|b| - 1];
      assert s[..|s| - 1] == a + b';
      TrimTrailingStopsBefore(a, b', c);
      var n :| 0 <= n <= |b'| && TrimTrailing(a + b', c) == a + b'[..n]
        && (forall i :: n <= i < |b'| ==> b'[i] == c) && (n == 0 || b'[n - 1] != c);
      assert b'[..n] == b[..n];
      assert forall i :: n <= i < |b| ==> b[i] == c;
    } else {
      assert s == a + b[..|b|];
    }
  }

  /** A non-empty string quotes to a non-empty string free of ':'. */
  lemma QuotedHost(u: Urllib, host: string)
    requires ValidUrllib(u) && host != ""
    ensures u.quote(host) != "" && ':' !in u.quote(host)
  {
    assert u.unquote("") == "" by { assert '%' !in ""; }
    assert u.unquote(u.quote(host)) == host;
  }

  /** FirstIndex finds the one position that holds `c` with no `c` before it. */
  lemma {:induction false} FirstIndexAt(s: string, c: char, i: nat)
    requires i < |s| && s[i] == c && c !in s[..i]
    ensures c in s && FirstIndex(s, c) == i
  {
    if i > 0 {
      assert s[0] in s[..i];
      assert s[1..][..i - 1] == s[1..i];
      assert forall x :: x in s[1..i] ==> x in s[..i];
      FirstIndexAt(s[1..], c, i - 1);
    }
  }

  /** The did url_to_did_web builds: the prefix, the quoted host, then the path with each
      '/' turned into ':', cut just before its run of trailing ':' (the host never loses a
      character). */
  lemma UrlToDidWebShape(u: Urllib, url: string)
    requires ValidUrllib(u)
    requires u.urlparse(url).netloc != ""
    ensures var p := u.urlparse(url);
      var tail := Replace(p.path, '/', ':');
      exists n :: 0 <= n <= |tail|
        && UrlToDidWeb(u, url) == Ok(Prefix + u.quote(p.netloc) + tail[..n])
        && (forall i :: n <= i < |tail| ==> tail[i] == ':')
        && (n == 0 || tail[n - 1] != ':')
    ensures var p := u.urlparse(url);
      (p.path == "" || (p.path[|p.path| - 1] != '/' && p.path[|p.path| - 1] != ':')) ==>
        UrlToDidWeb(u, url) == Ok(Prefix + u.quote(p.netloc) + Replace(p.path, '/', ':'))
  {
    var p := u.urlparse(url);
    var q := u.quote(p.netloc);
    var tail := Replace(p.path, '/', ':');
    QuotedHost(u, p.netloc);
    var a := Prefix + q;
    assert a[|a| - 1] == q[|q| - 1] != ':';
    assert (a + tail)[0] == 'd';
    assert TrimLeading(a + tail, ':') == a + tail;
    TrimTrailingStopsBefore(a, tail, ':');
    if p.path == "" {
      assert tail == "";
      assert UrlToDidWeb(u, url) == Ok(Strip(a, ':'));
      assert a == a + tail;
    } else {
      assert UrlToDidWeb(u, url) == Ok(Strip(a + tail, ':'));
    }
  }

  lemma ReplaceBack(s: string)
    requires ':' !in s
    ensures Replace(Replace(s, '/', ':'), ':', '/') == s
  {
  }

  /** Resolving a did:web without a path: the whole remainder is the host. */
  lemma DecodeHost(u: Urllib, h: string)
    requires ':' !in h
    ensures DidWebToUrl(u, Prefix + h) == Ok("https://" + u.unquote(h) + "/" + u.unquote(""))
  {
    var did := Prefix + h;
    assert Prefix <= did;
    assert did[|Prefix|..] == h;
    assert Replace("", ':', '/') == "";
  }

  /** Resolving a did:web with a path: the host ends at the first ':' and the remaining
      ':' become '/'. */
  lemma DecodeHostPath(u: Urllib, h: string, path: string)
    requires ':' !in h
    ensures DidWebToUrl(u, Prefix + h + ":" + path) ==
      Ok("https://" + u.unquote(h) + "/" + u.unquote(Replace(path, ':', '/')))
  {
    var did := Prefix + h + ":" + path;
    var rest := h + ":" + path;
    assert did == Prefix + rest;
    assert Prefix <= did;
    assert did[|Prefix|..] == rest;
    assert rest[..|h|] == h;
    FirstIndexAt(rest, ':', |h|);
    assert rest[|h| + 1..] == path;
  }

  /** Round trip: for a URL with a host, a path free of ':' and '%', and no trailing '/'
      on a longer path, decoding the did gives back https://host followed by the path,
      or by '/' when the path is empty. */
  lemma RoundTrip(u: Urllib, url: string)
    requires ValidUrllib(u)
    requires var p := u.urlparse(url);
      p.netloc != "" && ':' !in p.path && '%' !in p.path &&
      (p.path == "" || p.path == "/" || p.path[|p.path| - 1] != '/')
    ensures UrlToDidWeb(u, url).Ok?
    ensures var p := u.urlparse(url);
      DidWebToUrl(u, UrlToDidWeb(u, url).value) ==
        Ok("https://" + p.netloc + (if p.path == "" then "/" else p.path))
  {
    var p := u.urlparse(url);
    if p.path == "" || p.path == "/" {
      RoundTripHostOnly(u, url);
    } else {
      RoundTripWithPath(u, url);
    }
  }

  lemma RoundTripHostOnly(u: Urllib, url: string)
    requires ValidUrllib(u)
    requires var p := u.urlparse(url); p.netloc != "" && (p.path == "" || p.path == "/")
    ensures UrlToDidWeb(u, url) == Ok(Prefix + u.quote(u.urlparse(url).netloc))
    ensures DidWebToUrl(u, UrlToDidWeb(u, url).value) == Ok("https://" + u.urlparse(url).netloc + "/")
  {
    var p := u.urlparse(url);
    var q := u.quote(p.netloc);
    QuotedHost(u, p.netloc);
    UrlToDidWebShape(u, url);
    var did := UrlToDidWeb(u, url).value;
    if p.path == "/" {
      var n :| 0 <= n <= 1 && did == Prefix + q + Replace(p.path, '/', ':')[..n];
      if n == 1 {
        assert false;
      }
    }
    assert did == Prefix + q;
    DecodeHost(u, q);
    assert u.unquote(q) == p.netloc;
    assert u.unquote("") == "" by { assert '%' !in ""; }
    assert "https://" + p.netloc + "/" + "" == "https://" + p.netloc + "/";
  }

  lemma RoundTripWithPath(u: Urllib, url: string)
    requires ValidUrllib(u)
    requires var p := u.urlparse(url);
      p.netloc != "" && ':' !in p.path && '%' !in p.path &&
      p.path != "" && p.path[|p.path| - 1] != '/'
    ensures UrlToDidWeb(u, url).Ok?
    ensures DidWebToUrl(u, UrlToDidWeb(u, url).value) ==
      Ok("https://" + u.urlparse(url).netloc + u.urlparse(url).path)
  {
    var p := u.urlparse(url);
    var tail := p.path[1..];
    EncodeWithPath(u, url);
    assert '%' !in tail && ':' !in tail by { assert forall x :: x in tail ==> x in p.path; }
    DecodeEncoded(u, p.netloc, tail);
    assert "https://" + p.netloc + "/" + tail == "https://" + p.netloc + p.path;
  }

  /** A URL with a path that does not end in '/' or ':' becomes the quoted host, ':' and
      the rest of the path with its '/' turned into ':'. */
  lemma EncodeWithPath(u: Urllib, url: string)
    requires ValidUrllib(u)
    requires var p := u.urlparse(url);
      p.netloc != "" && ':' !in p.path && p.path != "" && p.path[|p.path| - 1] != '/'
    ensures var p := u.urlparse(url);
      && p.path == "/" + p.path[1..]
      && UrlToDidWeb(u, url) == Ok(Prefix + u.quote(p.netloc) + ":" + Replace(p.path[1..], '/', ':'))
  {
    var p := u.urlparse(url);
    UrlToDidWebShape(u, url);
    assert UrlPathIsRooted(p);
    var tail := p.path[1..];
    assert p.path == "/" + tail;
    assert p.path[|p.path| - 1] in p.path;
    assert Replace(p.path, '/', ':') == ":" + Replace(tail, '/', ':');
    assert Prefix + u.quote(p.netloc) + (":" + Replace(tail, '/', ':'))
      == Prefix + u.quote(p.netloc) + ":" + Replace(tail, '/', ':');
  }

  /** Decoding the did of a host and a plain path gives back the host and the path. */
  lemma DecodeEncoded(u: Urllib, host: string, tail: string)
    requires ValidUrllib(u) && host != "" && ':' !in tail && '%' !in tail
    ensures DidWebToUrl(u, Prefix + u.quote(host) + ":" + Replace(tail, '/', ':')) ==
      Ok("https://" + host + "/" + tail)
  {
    QuotedHost(u, host);
    DecodeHostPath(u, u.quote(host), Replace(tail, '/', ':'));
    ReplaceBack(tail);
    assert u.unquote(u.quote(host)) == host;
    assert u.unquote(tail) == tail;
  }

  /** 'did:web:foo.com' resolves to 'https://foo.com/', with the trailing '/' the code
      always adds (the docstring shows it without). */
  lemma ResolveHostOnly(u: Urllib)
    requires ValidUrllib(u)
    ensures DidWebToUrl(u, "did:web:foo.com") == Ok("https://" + "foo.com" + "/")
  {
    DecodeHost(u, "foo.com");
    assert Prefix + "foo.com" == "did:web:foo.com";
    assert u.unquote("foo.com") == "foo.com" by { assert '%' !in "foo.com"; }
    assert u.unquote("") == "" by { assert '%' !in ""; }
    assert "https://" + "foo.com" + "/" + "" == "https://" + "foo.com" + "/";
  }
}
