/**
 * The part of URL parsing the server depends on: `Url::parse(..)` followed by
 * `host_str()` and `path()`. A URL is read as
 * `scheme ":" ["//" [userinfo "@"] host [":" port]] path ["?" query] ["#" fragment]`.
 */
module Url {
  import opened Wrappers
  import Text
  import Time

  datatype Url = Url(
    scheme: string,
    host: Option<string>,
    port: Option<nat>,
    path: string,
    query: Option<string>,
    fragment: Option<string>)

  /** Schemes whose URLs must carry a host and whose empty path reads as "/". */
  predicate IsSpecial(scheme: string) {
    scheme == "http" || scheme == "https" || scheme == "ws" || scheme == "wss" || scheme == "ftp"
  }

  predicate IsAlpha(c: char) {
    'a' <= c <= 'z' || 'A' <= c <= 'Z'
  }

  predicate IsSchemeChar(c: char) {
    IsAlpha(c) || Time.IsDigit(c) || c == '+' || c == '-' || c == '.'
  }

  /** A scheme as URL parsing accepts it: a letter, then letters, digits, `+`, `-` or `.`. */
  predicate ValidScheme(s: string) {
    |s| > 0 && IsAlpha(s[0]) && forall k :: 0 <= k < |s| ==> IsSchemeChar(s[k])
  }

  /** The largest port: ports are 16-bit numbers. */
  const MAX_PORT: nat := 65535

  /** A port as written after ":": decimal digits, possibly none, whose value fits in 16 bits. */
  predicate PortInRange(p: string) {
    Time.AllDigits(p) && (|p| > 0 ==> Time.DigitsValue(p) <= MAX_PORT)
  }

  /** The length of the longest prefix of `s` free of the characters in `stop`. */
  function Span(s: string, stop: set<char>): (n: nat)
    ensures n <= |s|
    ensures forall k :: 0 <= k < n ==> s[k] !in stop
    ensures n < |s| ==> s[n] in stop
  {
    if |s| == 0 || s[0] in stop then 0 else 1 + Span(s[1..], stop)
  }

  /** Text after the last "@" of an authority: the user information is not part of the host. */
  function DropUserinfo(authority: string): (r: string)
    ensures '@' !in r
    decreases |authority|
  {
    match Text.SplitOnce(authority, '@')
    case None => authority
    case Some((_, rest)) => DropUserinfo(rest)
  }

  /** Path, query and fragment of what follows the authority. */
  function ParseTail(scheme: string, rest: string): (r: (string, Option<string>, Option<string>))
  {
    var p := Span(rest, {'?', '#'});
    var path := if p == 0 && IsSpecial(scheme) then "/" else rest[..p];
    var after := rest[p..];
    var q := Span(after, {'#'});
    var query := if |after| > 0 && after[0] == '?' then Some(after[1..q]) else None;
    var frag := if q < |after| then Some(after[q + 1..]) else None;
    (path, query, frag)
  }

  predicate IsUpper(c: char) {
    'A' <= c <= 'Z'
  }

  function LowerChar(c: char): (r: char)
    ensures !IsUpper(r)
  {
    if IsUpper(c) then (c as int - 'A' as int + 'a' as int) as char else c
  }

  /** ASCII lower case: the host of an `http` or `https` URL is case-insensitive and kept in lower case. */
  function Lower(s: string): (r: string)
    ensures |r| == |s| && forall k :: 0 <= k < |s| ==> r[k] == LowerChar(s[k])
  {
    seq(|s|, k requires 0 <= k < |s| => LowerChar(s[k]))
  }

  /** The port a URL of a special scheme has when it names none. */
  function DefaultPort(scheme: string): nat {
    if scheme == "https" || scheme == "wss" then 443
    else if scheme == "ftp" then 21
    else 80
  }

  /** The port kept: none when none or an empty one is written, or when it is the scheme's default. */
  function PortOf(scheme: string, written: Option<string>): (r: Option<nat>)
    requires written.Some? ==> PortInRange(written.value)
    ensures r.Some? ==> r.value <= MAX_PORT && !(IsSpecial(scheme) && r.value == DefaultPort(scheme))
    ensures r.None? ==> written.None? || |written.value| == 0 || (IsSpecial(scheme) && Time.DigitsValue(written.value) == DefaultPort(scheme))
  {
    match written
    case None => None
    case Some(p) =>
      if |p| == 0 then None
      else if IsSpecial(scheme) && Time.DigitsValue(p) == DefaultPort(scheme) then None
      else Some(Time.DigitsValue(p))
  }

  /** A special scheme may be followed by any number of slashes before its authority. */
  function SkipSlashes(s: string): (r: string)
    ensures |r| <= |s| && r == s[|s| - |r|..]
    ensures |r| > 0 ==> r[0] != '/'
  {
    if |s| > 0 && s[0] == '/' then SkipSlashes(s[1..]) else s
  }

  /**
   * What follows the slashes: the authority, then path, query and fragment. A special scheme's
   * host is put in lower case and must not be empty. A port must be digits within 16 bits and
   * needs a host before it; an empty or default port is dropped.
   */
  function ParseAuthority(scheme: string, afterSlashes: string): (r: Option<Url>)
    ensures r.Some? ==> r.value.scheme == scheme
    ensures r.Some? && r.value.port.Some? ==> r.value.port.value <= MAX_PORT
    ensures r.Some? && IsSpecial(scheme) ==>
      && r.value.host.Some? && (forall c :: c in r.value.host.value ==> !IsUpper(c))
      && r.value.port != Some(DefaultPort(scheme))
  {
    var a := Span(afterSlashes, {'/', '?', '#'});
    var hostPort := DropUserinfo(afterSlashes[..a]);
    var (written, writtenPort) :=
      match Text.SplitOnce(hostPort, ':')
      case None => (hostPort, None)
      case Some((h, p)) => (h, Some(p));
    var host := if IsSpecial(scheme) then Lower(written) else written;
    if writtenPort.Some? && (|written| == 0 || !PortInRange(writtenPort.value)) then None
    else if |host| == 0 && IsSpecial(scheme) then None
    else
      var (path, query, frag) := ParseTail(scheme, afterSlashes[a..]);
      Some(Url(scheme, if |host| == 0 then None else Some(host), PortOf(scheme, writtenPort), path, query, frag))
  }

  /**
   * `Url::parse`: `None` where the text is not a URL. The scheme is read in lower case; a
   * special scheme takes its authority after any number of slashes, others only after "//".
   */
  function Parse(s: string): (r: Option<Url>)
    ensures r.Some? ==> ValidScheme(r.value.scheme) && forall c :: c in r.value.scheme ==> !IsUpper(c)
    ensures r.Some? ==> Text.SplitOnce(s, ':').Some? && r.value.scheme == Lower(Text.SplitOnce(s, ':').value.0)
    ensures r.Some? && r.value.port.Some? ==> r.value.port.value <= MAX_PORT
    ensures r.Some? && IsSpecial(r.value.scheme) ==>
      && r.value.host.Some? && |r.value.host.value| > 0
      && (forall c :: c in r.value.host.value ==> !IsUpper(c))
      && r.value.port != Some(DefaultPort(r.value.scheme))
  {
    match Text.SplitOnce(s, ':')
    case None => None
    case Some((written, rest)) =>
      if !ValidScheme(written) then None
      else
        var scheme := Lower(written);
        LowerScheme(written);
        if IsSpecial(scheme) then ParseAuthority(scheme, SkipSlashes(rest))
        else if "//" <= rest then ParseAuthority(scheme, rest[2..])
        else
          var (path, query, frag) := ParseTail(scheme, rest);
          Some(Url(scheme, None, None, path, query, frag))
  }

  /** A valid scheme stays valid in lower case. */
  lemma LowerScheme(s: string)
    requires ValidScheme(s)
    ensures ValidScheme(Lower(s)) && forall c :: c in Lower(s) ==> !IsUpper(c)
  {
    forall k | 0 <= k < |s|
      ensures IsSchemeChar(Lower(s)[k])
    {
      assert IsSchemeChar(s[k]);
    }
  }

  /** `url.host_str()` after a successful parse; `None` for a non-URL or a URL without host. */
  function Host(s: string): (r: Option<string>)
    ensures r.Some? <==> Parse(s).Some? && Parse(s).value.host.Some?
  {
    match Parse(s)
    case None => None
    case Some(u) => u.host
  }

  /** `url.path()`: only the path; the query and the fragment are not part of it. */
  function Path(s: string): (r: Option<string>)
    ensures r.Some? <==> Parse(s).Some?
  {
    match Parse(s)
    case None => None
    case Some(u) => Some(u.path)
  }

  /** The URLs the server itself writes: `scheme://host/path[?query]`, with no port or fragment. */
  predicate WellFormed(u: Url) {
    && (u.scheme == "http" || u.scheme == "https")
    && u.host.Some? && |u.host.value| > 0
    && (forall c :: c in u.host.value ==> c !in {':', '/', '?', '#', '@'} && !IsUpper(c))
    && u.port.None? && u.fragment.None?
    && |u.path| > 0 && u.path[0] == '/'
    && (forall c :: c in u.path ==> c !in {'?', '#'})
    && (u.query.Some? ==> '#' !in u.query.value)
  }

  function Render(u: Url): string
    requires WellFormed(u)
  {
    u.scheme + "://" + u.host.value + Tail(u)
  }

  /** Path and query as written after the host. */
  function Tail(u: Url): string {
    u.path + (if u.query.Some? then "?" + u.query.value else "")
  }

  lemma SpanWhole(s: string, stop: set<char>)
    requires forall c :: c in s ==> c !in stop
    ensures Span(s, stop) == |s|
  {
    if |s| > 0 {
      assert s[0] in s;
      SpanWhole(s[1..], stop);
    }
  }

  lemma {:induction false} SpanPrefix(s: string, t: string, stop: set<char>)
    requires forall c :: c in s ==> c !in stop
    requires |t| > 0 && t[0] in stop
    ensures Span(s + t, stop) == |s|
    decreases |s|
  {
    if |s| == 0 {
      assert s + t == t;
    } else {
      assert s[0] in s;
      assert (s + t)[1..] == s[1..] + t;
      SpanPrefix(s[1..], t, stop);
    }
  }

  lemma ParseTailOf(scheme: string, path: string, query: Option<string>)
    requires |path| > 0 && path[0] == '/'
    requires forall c :: c in path ==> c !in {'?', '#'}
    requires query.Some? ==> '#' !in query.value
    ensures ParseTail(scheme, path + (if query.Some? then "?" + query.value else ""))
         == (path, query, None)
  {
    var rest := path + (if query.Some? then "?" + query.value else "");
    if query.Some? {
      var after := "?" + query.value;
      assert rest == path + after;
      SpanPrefix(path, after, {'?', '#'});
      assert rest[|path|..] == after;
      assert rest[..|path|] == path;
      assert forall c :: c in after ==> c != '#' by {
        assert forall c :: c in after ==> c == '?' || c in query.value;
      }
      SpanWhole(after, {'#'});
      assert after[1..|after|] == query.value;
    } else {
      assert rest == path;
      SpanWhole(path, {'?', '#'});
      assert rest[..|path|] == path;
      assert rest[|path|..] == "";
    }
  }

  /** The authority `written + Tail(u)` parses to `u`, whose host is `written` in lower case. */
  lemma ParseAuthorityOf(u: Url, written: string)
    requires WellFormed(u)
    requires Lower(written) == u.host.value
    requires forall c :: c in written ==> c !in {':', '/', '?', '#', '@'}
    ensures ParseAuthority(u.scheme, written + Tail(u)) == Some(u)
  {
    var host := written;
    var tail := Tail(u);
    var s := host + tail;
    assert forall c :: c in host ==> c !in {'/', '?', '#'};
    SpanPrefix(host, tail, {'/', '?', '#'});
    var a := Span(s, {'/', '?', '#'});
    assert a == |host|;
    assert s[..a] == host;
    assert s[a..] == tail;
    assert DropUserinfo(host) == host by {
      assert '@' !in host;
    }
    assert Text.SplitOnce(host, ':') == None by {
      assert ':' !in host;
    }
    ParseTailOf(u.scheme, u.path, u.query);
    assert ParseTail(u.scheme, s[a..]) == (u.path, u.query, None);
    assert u == Url(u.scheme, Some(Lower(host)), None, u.path, u.query, None);
  }

  /** Parsing a URL the server writes gives back its parts: host and path are read exactly. */
  lemma ParseRender(u: Url)
    requires WellFormed(u)
    ensures Parse(Render(u)) == Some(u)
  {
    var host := u.host.value;
    assert host[0] in host;
    assert Render(u) == u.scheme + "://" + (host + Tail(u));
    ParseSpecial(u.scheme, host + Tail(u));
    LowerKeeps(host);
    ParseAuthorityOf(u, host);
  }

  /** The schemes the server writes are valid and already in lower case. */
  lemma HttpSchemes()
    ensures ValidScheme("http") && ValidScheme("https")
    ensures Lower("http") == "http" && Lower("https") == "https"
  {
    LowerKeeps("http");
    LowerKeeps("https");
  }

  lemma SkipTwoSlashes(x: string)
    requires |x| > 0 && x[0] != '/'
    ensures SkipSlashes("//" + x) == x
  {
    var s := "//" + x;
    assert s[0] == '/' && s[1..] == "/" + x;
    assert ("/" + x)[0] == '/' && ("/" + x)[1..] == x;
    assert SkipSlashes(s) == SkipSlashes("/" + x);
    assert SkipSlashes("/" + x) == SkipSlashes(x);
  }

  /** `http://` or `https://` followed by an authority reads that authority. */
  lemma ParseSpecial(scheme: string, rest: string)
    requires scheme == "http" || scheme == "https"
    requires |rest| > 0 && rest[0] != '/'
    ensures Parse(scheme + "://" + rest) == ParseAuthority(scheme, rest)
  {
    assert scheme + "://" + rest == scheme + [':'] + ("//" + rest);
    assert ':' !in scheme;
    Text.SplitOnceAt(scheme, "//" + rest, ':');
    HttpSchemes();
    SkipTwoSlashes(rest);
  }

  /** The host read from a URL the server writes is the host it was written with. */
  lemma HostRender(u: Url)
    requires WellFormed(u)
    ensures Host(Render(u)) == u.host
  {
    ParseRender(u);
  }

  /** A text without upper-case letters is its own lower case. */
  lemma LowerKeeps(s: string)
    requires forall c :: c in s ==> !IsUpper(c)
    ensures Lower(s) == s
  {
    forall k | 0 <= k < |s|
      ensures Lower(s)[k] == s[k]
    {
      assert s[k] in s;
    }
  }

  /**
   * The host of `https://host/path`, for a host and a path of the kinds the server writes:
   * the host as written, in lower case.
   */
  lemma HostOfHttps(host: string, path: string, s: string)
    requires |host| > 0 && forall c :: c in host ==> c !in {':', '/', '?', '#', '@'}
    requires |path| > 0 && path[0] == '/' && forall c :: c in path ==> c !in {'?', '#'}
    requires s == "https://" + host + path
    ensures Host(s) == Some(Lower(host))
  {
    var u := Url("https", Some(Lower(host)), None, path, None, None);
    forall c | c in Lower(host)
      ensures c !in {':', '/', '?', '#', '@'} && !IsUpper(c)
    {
      var k :| 0 <= k < |host| && Lower(host)[k] == c;
      assert host[k] in host;
    }
    assert WellFormed(u);
    assert Tail(u) == path;
    assert host[0] in host;
    assert s == "https" + "://" + (host + path);
    ParseSpecial("https", host + path);
    ParseAuthorityOf(u, host);
  }

  /** Letter case in the scheme does not matter: a URL reads as it does with its scheme in lower case. */
  lemma SchemeCaseIgnored(written: string, rest: string)
    requires ValidScheme(written)
    ensures Parse(written + ":" + rest) == Parse(Lower(written) + ":" + rest)
  {
    assert ':' !in written by {
      forall k | 0 <= k < |written|
        ensures written[k] != ':'
      {
        assert IsSchemeChar(written[k]);
      }
    }
    LowerScheme(written);
    assert ':' !in Lower(written) by {
      forall k | 0 <= k < |written|
        ensures Lower(written)[k] != ':'
      {
        assert IsSchemeChar(Lower(written)[k]);
      }
    }
    assert written + ":" + rest == written + [':'] + rest;
    assert Lower(written) + ":" + rest == Lower(written) + [':'] + rest;
    Text.SplitOnceAt(written, rest, ':');
    Text.SplitOnceAt(Lower(written), rest, ':');
    LowerKeeps(Lower(written));
  }

  /** The host of `https://host/path` with the scheme written in any letter case. */
  lemma HostOfHttpsAnyCase(scheme: string, host: string, path: string, s: string)
    requires ValidScheme(scheme) && Lower(scheme) == "https"
    requires |host| > 0 && forall c :: c in host ==> c !in {':', '/', '?', '#', '@'}
    requires |path| > 0 && path[0] == '/' && forall c :: c in path ==> c !in {'?', '#'}
    requires s == scheme + "://" + host + path
    ensures Host(s) == Some(Lower(host))
  {
    var rest := "//" + host + path;
    var t := "https://" + host + path;
    ColonSlashes(scheme, host, path);
    ColonSlashes("https", host, path);
    assert s == scheme + ":" + rest;
    assert t == Lower(scheme) + ":" + rest;
    SchemeCaseIgnored(scheme, rest);
    HostSameParse(s, t);
    HostOfHttps(host, path, t);
  }

  lemma HostSameParse(s: string, t: string)
    requires Parse(s) == Parse(t)
    ensures Host(s) == Host(t)
  {
  }

  lemma ColonSlashes(scheme: string, host: string, path: string)
    ensures scheme + "://" + host + path == scheme + ":" + ("//" + host + path)
  {
    assert ":" + "//" == "://";
  }

  /** An `http` or `https` URL reads the same with or without the "//" before its authority. */
  lemma SlashesOptional(scheme: string, rest: string)
    requires scheme == "http" || scheme == "https"
    requires |rest| > 0 && rest[0] != '/'
    ensures Parse(scheme + ":" + rest) == Parse(scheme + "://" + rest) == ParseAuthority(scheme, rest)
  {
    assert scheme + ":" + rest == scheme + [':'] + rest;
    assert ':' !in scheme;
    Text.SplitOnceAt(scheme, rest, ':');
    HttpSchemes();
    ParseSpecial(scheme, rest);
  }

  /** An authority without "@" is its own host and port. */
  lemma NoUserinfo(authority: string)
    requires '@' !in authority
    ensures DropUserinfo(authority) == authority
  {
  }

  /** The authority ends at the first "/", "?" or "#". */
  lemma AuthorityEnds(authority: string, tail: string)
    requires forall c :: c in authority ==> c !in {'/', '?', '#'}
    requires |tail| > 0 ==> tail[0] in {'/', '?', '#'}
    ensures var s := authority + tail;
      Span(s, {'/', '?', '#'}) == |authority| && s[..|authority|] == authority
  {
    if |tail| > 0 {
      SpanPrefix(authority, tail, {'/', '?', '#'});
    } else {
      assert authority + tail == authority;
      SpanWhole(authority, {'/', '?', '#'});
    }
    assert (authority + tail)[..|authority|] == authority;
  }

  /** `host:port` followed by the rest of the URL fails when the port is not acceptable. */
  lemma BadPortAuthority(scheme: string, host: string, port: string, tail: string)
    requires |host| > 0 && forall c :: c in host ==> c !in {':', '/', '?', '#', '@'}
    requires forall c :: c in port ==> c !in {'/', '?', '#', '@'}
    requires |tail| > 0 ==> tail[0] in {'/', '?', '#'}
    requires !PortInRange(port)
    ensures ParseAuthority(scheme, host + ":" + port + tail) == None
  {
    var hp := host + ":" + port;
    assert forall c :: c in hp ==> c !in {'/', '?', '#', '@'} by {
      assert forall c :: c in hp ==> c in host || c == ':' || c in port;
    }
    AuthorityEnds(hp, tail);
    NoUserinfo(hp);
    assert hp == host + [':'] + port;
    Text.SplitOnceAt(host, port, ':');
  }

  /** A port that is not digits, or whose value exceeds 16 bits, makes the URL fail to parse. */
  lemma BadPortFails(scheme: string, host: string, port: string, tail: string)
    requires scheme == "http" || scheme == "https"
    requires |host| > 0 && forall c :: c in host ==> c !in {':', '/', '?', '#', '@'}
    requires forall c :: c in port ==> c !in {'/', '?', '#', '@'}
    requires |tail| > 0 ==> tail[0] in {'/', '?', '#'}
    requires !PortInRange(port)
    ensures Parse(scheme + "://" + host + ":" + port + tail) == None
  {
    var rest := host + ":" + port + tail;
    assert rest[0] == host[0] && host[0] in host;
    assert scheme + "://" + host + ":" + port + tail == scheme + "://" + rest;
    ParseSpecial(scheme, rest);
    BadPortAuthority(scheme, host, port, tail);
  }
}
