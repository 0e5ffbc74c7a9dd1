/**
 * Signed outgoing requests (`ferri-main/src/ap/http.rs`): a request builder that carries
 * the verb, the parsed URL, the body and the request being assembled, and that signs GET and
 * POST requests after draft-cavage-http-signatures (section 2.3, the signature string), with a
 * `Digest` of RFC 3230 (section 4.3.2) and a `Date` in the IMF-fixdate of RFC 7231.
 *
 * SHA-256, base64 and RSA signing with the server key are not modelled: they are the
 * uninterpreted functions of a `Primitives` value.
 */
module Http {
  import opened Wrappers
  import Text
  import Url
  import Time

  newtype byte = x: int | 0 <= x < 256

  /** The cryptographic primitives the signer calls, as uninterpreted functions. */
  datatype Primitives = Primitives(
    sha256: string -> seq<byte>,
    base64: seq<byte> -> string,
    rsaSign: string -> seq<byte>)

  datatype Verb = Get | Post

  type Header = (string, string)

  const ACTIVITY_JSON := "application/activity+json"

  /** A request as it leaves the builder: what is on the wire. */
  datatype Request = Request(verb: Verb, url: Url.Url, headers: seq<Header>, payload: Option<string>)

  // ---------------------------------------------------------------- signature strings

  /** The `Digest` header value: `SHA-256=` and the base64 of the body's SHA-256. */
  function DigestValue(p: Primitives, body: string): (r: string)
    ensures "SHA-256=" <= r
  {
    "SHA-256=" + p.base64(p.sha256(body))
  }

  /** The signature string of a GET: one `name: value` line per signed header. */
  function GetSigningString(path: string, host: string, date: string): string
  {
    Text.Join(["(request-target): get " + path, "host: " + host, "date: " + date], '\n')
  }

  /** The signature string of a POST: the GET lines with `post`, then the digest line. */
  function PostSigningString(path: string, host: string, date: string, digest: string): string
  {
    Text.Join(
      ["(request-target): post " + path, "host: " + host, "date: " + date, "digest: " + digest],
      '\n')
  }

  /** A `name="value"` parameter of the `Signature` header. */
  function Param(h: Header): string {
    h.0 + "=\"" + h.1 + "\""
  }

  function Params(hs: seq<Header>): seq<string>
  {
    seq(|hs|, i requires 0 <= i < |hs| => Param(hs[i]))
  }

  /** The `Signature` header: the key id, algorithm, header list and signature as parameters joined by commas. */
  function SignatureHeader(keyId: string, signedHeaders: string, signature: string): string
  {
    Text.Join(Params(SignatureParams(keyId, signedHeaders, signature)), ',')
  }

  function SignatureParams(keyId: string, signedHeaders: string, signature: string): seq<Header>
  {
    [("keyId", keyId), ("algorithm", "rsa-sha256"), ("headers", signedHeaders), ("signature", signature)]
  }

  datatype GetSignature = GetSignature(date: string, signature: string)
  datatype PostSignature = PostSignature(date: string, digest: string, signature: string)

  /** `sign_get_request`, given the URL's host. */
  function SignGet(p: Primitives, host: string, path: string, keyId: string, now: Time.DateTime): GetSignature
    requires Time.Valid(now)
  {
    var date := Time.ImfFixdate(now);
    var toSign := GetSigningString(path, host, date);
    GetSignature(date, SignatureHeader(keyId, "(request-target) host date", p.base64(p.rsaSign(toSign))))
  }

  /** `sign_post_request`, given the URL's host and the body as it stands. */
  function SignPost(p: Primitives, host: string, path: string, body: string, keyId: string, now: Time.DateTime): PostSignature
    requires Time.Valid(now)
  {
    var digest := DigestValue(p, body);
    var date := Time.ImfFixdate(now);
    var toSign := PostSigningString(path, host, date, digest);
    PostSignature(date, digest,
      SignatureHeader(keyId, "(request-target) host date digest", p.base64(p.rsaSign(toSign))))
  }

  /** The headers `sign` adds, in order, for a URL with a host. */
  function SignedHeaders(p: Primitives, verb: Verb, host: string, path: string, body: string,
                         keyId: string, now: Time.DateTime): seq<Header>
    requires Time.Valid(now)
  {
    match verb
    case Get =>
      var s := SignGet(p, host, path, keyId, now);
      [("Date", s.date), ("Signature", s.signature)]
    case Post =>
      var s := SignPost(p, host, path, body, keyId, now);
      [("Date", s.date), ("Digest", s.digest), ("Signature", s.signature)]
  }

  function Names(hs: seq<Header>): seq<string> {
    seq(|hs|, i requires 0 <= i < |hs| => hs[i].0)
  }

  /** The value of the first header called `name`. */
  function Lookup(hs: seq<Header>, name: string): (r: Option<string>)
    ensures r.None? <==> name !in Names(hs)
    ensures r.Some? ==> (name, r.value) in hs
    ensures r.Some? ==>
      exists i :: (0 <= i < |hs| && hs[i] == (name, r.value)
        && forall j :: 0 <= j < i ==> hs[j].0 != name)
  {
    assert |hs| > 0 ==> Names(hs) == [hs[0].0] + Names(hs[1..]);
    if |hs| == 0 then None
    else if hs[0].0 == name then Some(hs[0].1)
    else
      var r := Lookup(hs[1..], name);
      if r.Some? then
        var i :| 0 <= i < |hs[1..]| && hs[1..][i] == (name, r.value)
          && forall j :: 0 <= j < i ==> hs[1..][j].0 != name;
        assert hs[i + 1] == (name, r.value);
        assert forall j :: 0 <= j < i + 1 ==> hs[j].0 != name by {
          forall j | 0 <= j < i + 1
            ensures hs[j].0 != name
          {
            if j > 0 {
              assert hs[j] == hs[1..][j - 1];
            }
          }
        }
        r
      else
        r
  }

  /** A header that is present is found. */
  lemma LookupFinds(hs: seq<Header>, i: nat)
    requires i < |hs|
    ensures Lookup(hs, hs[i].0).Some?
  {
    assert Names(hs)[i] == hs[i].0;
  }

  // ---------------------------------------------------------------- the builder

  /**
   * `RequestBuilder`: the verb and URL it was opened with, the body the digest is taken
   * over, and the reqwest request being assembled (its headers and its payload).
   */
  class RequestBuilder {
    var verb: Verb
    var url: Url.Url
    var body: string
    var headers: seq<Header>
    var payload: Option<string>

    /** `HttpClient::get` and `HttpClient::post`: an empty body and a bare request. */
    constructor (verb: Verb, url: Url.Url)
      ensures this.verb == verb && this.url == url
      ensures body == "" && headers == [] && payload == None
    {
      this.verb := verb;
      this.url := url;
      body := "";
      headers := [];
      payload := None;
    }

    function Snapshot(): Request
      reads this
    {
      Request(verb, url, headers, payload)
    }

    /** `json`: the serialised payload becomes both the body and the request's payload. */
    method Json(serialised: string)
      modifies this
      ensures body == serialised && payload == Some(serialised)
      ensures verb == old(verb) && url == old(url) && headers == old(headers)
    {
      payload := Some(serialised);
      body := serialised;
    }

    /** `activity`: the two ActivityStreams media-type headers. */
    method Activity()
      modifies this
      ensures headers == old(headers) + [("Content-Type", ACTIVITY_JSON), ("Accept", ACTIVITY_JSON)]
      ensures verb == old(verb) && url == old(url) && body == old(body) && payload == old(payload)
    {
      headers := headers + [("Content-Type", ACTIVITY_JSON), ("Accept", ACTIVITY_JSON)];
    }

    /**
     * `sign`: Date and Signature for a GET; Date, Digest and Signature for a POST, the
     * digest over the body as it stands now. `false` is the panic of a URL without a host.
     */
    method Sign(p: Primitives, keyId: string, now: Time.DateTime) returns (ok: bool)
      requires Time.Valid(now)
      modifies this
      ensures verb == old(verb) && url == old(url) && body == old(body) && payload == old(payload)
      ensures ok <==> url.host.Some?
      ensures ok ==>
        headers == old(headers) + SignedHeaders(p, verb, url.host.value, url.path, body, keyId, now)
      ensures !ok ==> headers == old(headers)
    {
      if url.host.None? {
        return false;
      }
      var host := url.host.value;
      match verb {
        case Get =>
          var s := SignGet(p, host, url.path, keyId, now);
          headers := headers + [("Date", s.date), ("Signature", s.signature)];
        case Post =>
          var s := SignPost(p, host, url.path, body, keyId, now);
          headers := headers + [("Date", s.date), ("Digest", s.digest), ("Signature", s.signature)];
      }
      return true;
    }
  }

  /** reqwest's `IntoUrl`: a URL that parses and has a host; otherwise `get`/`post` panic. */
  function IntoUrl(s: string): (r: Option<Url.Url>)
    ensures r.Some? ==> r.value.host.Some?
  {
    match Url.Parse(s)
    case Some(u) => if u.host.Some? then Some(u) else None
    case None => None
  }

  /** `HttpClient`: the requests it has put on the wire, in order. */
  class HttpClient {
    var sent: seq<Request>

    constructor ()
      ensures sent == []
    {
      sent := [];
    }

    /** `get`/`post`: `null` is the panic of `into_url().unwrap()`. */
    method Open(verb: Verb, target: string) returns (b: RequestBuilder?)
      ensures b == null <==> IntoUrl(target).None?
      ensures b != null ==>
        && fresh(b) && b.verb == verb && b.url == IntoUrl(target).value
        && b.body == "" && b.headers == [] && b.payload == None
    {
      match IntoUrl(target) {
        case None => b := null;
        case Some(u) => b := new RequestBuilder(verb, u);
      }
    }

    /** `RequestBuilder::send`: the request as assembled goes on the wire. */
    method Send(b: RequestBuilder)
      modifies this
      ensures sent == old(sent) + [b.Snapshot()]
    {
      sent := sent + [b.Snapshot()];
    }
  }

  // ---------------------------------------------------------------- properties

  /** The GET signature string is line by line the signed headers: the request target, host and date. */
  lemma GetSigningStringLines(path: string, host: string, date: string)
    requires '\n' !in path && '\n' !in host && '\n' !in date
    ensures Text.Split(GetSigningString(path, host, date), '\n')
      == ["(request-target): get " + path, "host: " + host, "date: " + date]
  {
    var lines := ["(request-target): get " + path, "host: " + host, "date: " + date];
    assert forall k :: 0 <= k < |lines| ==> '\n' !in lines[k];
    Text.SplitJoin(lines, '\n');
  }

  /** The POST signature string: the GET lines (with `post`) and a final digest line. */
  lemma PostSigningStringLines(path: string, host: string, date: string, digest: string)
    requires '\n' !in path && '\n' !in host && '\n' !in date && '\n' !in digest
    ensures Text.Split(PostSigningString(path, host, date, digest), '\n')
      == ["(request-target): post " + path, "host: " + host, "date: " + date, "digest: " + digest]
  {
    var lines := ["(request-target): post " + path, "host: " + host, "date: " + date, "digest: " + digest];
    assert forall k :: 0 <= k < |lines| ==> '\n' !in lines[k];
    Text.SplitJoin(lines, '\n');
  }

  /** The GET `headers` parameter names the signature string's lines in order. */
  lemma GetHeaderList()
    ensures Text.Split("(request-target) host date", ' ') == ["(request-target)", "host", "date"]
  {
    var names := ["(request-target)", "host", "date"];
    assert Text.Join(names, ' ') == "(request-target) host date";
    Text.SplitJoin(names, ' ');
  }

  /** The POST `headers` parameter names the same lines and ends in `digest`. */
  lemma PostHeaderList()
    ensures Text.Split("(request-target) host date digest", ' ')
      == ["(request-target)", "host", "date", "digest"]
  {
    var names := ["(request-target)", "host", "date", "digest"];
    assert Text.Join(names, ' ') == "(request-target) host date digest";
    Text.SplitJoin(names, ' ');
  }

  /** Reads a `name="value"` parameter. */
  function ParseParam(s: string): Option<Header>
  {
    match Text.SplitOnce(s, '=')
    case None => None
    case Some((name, quoted)) =>
      if |quoted| >= 2 && quoted[0] == '"' && quoted[|quoted| - 1] == '"'
      then Some((name, quoted[1..|quoted| - 1]))
      else None
  }

  function ParseParams(pieces: seq<string>): Option<seq<Header>>
  {
    if |pieces| == 0 then Some([])
    else
      match ParseParam(pieces[0])
      case None => None
      case Some(h) =>
        match ParseParams(pieces[1..])
        case None => None
        case Some(hs) => Some([h] + hs)
  }

  /** What a verifier reads out of a `Signature` header. */
  function ParseSignatureHeader(h: string): Option<seq<Header>>
  {
    ParseParams(Text.Split(h, ','))
  }

  predicate ParamSafe(v: string) {
    ',' !in v && '"' !in v
  }

  lemma ParseParamOf(h: Header)
    requires '=' !in h.0
    ensures ParseParam(Param(h)) == Some(h)
  {
    var quoted := "\"" + h.1 + "\"";
    assert Param(h) == h.0 + ['='] + quoted;
    Text.SplitOnceAt(h.0, quoted, '=');
    assert quoted[1..|quoted| - 1] == h.1;
  }

  lemma {:induction false} ParseParamsOf(hs: seq<Header>)
    requires forall i :: 0 <= i < |hs| ==> '=' !in hs[i].0
    ensures ParseParams(Params(hs)) == Some(hs)
  {
    if |hs| > 0 {
      var ps := Params(hs);
      assert ps[0] == Param(hs[0]);
      assert ps[1..] == Params(hs[1..]);
      ParseParamOf(hs[0]);
      ParseParamsOf(hs[1..]);
      assert ParseParams(ps) == Some([hs[0]] + hs[1..]);
      assert [hs[0]] + hs[1..] == hs;
    }
  }

  /** A verifier reads back the key id, the algorithm, the header list and the signature. */
  lemma ParseSignatureHeaderOf(keyId: string, signedHeaders: string, signature: string)
    requires ParamSafe(keyId) && ParamSafe(signedHeaders) && ParamSafe(signature)
    ensures ParseSignatureHeader(SignatureHeader(keyId, signedHeaders, signature))
      == Some(SignatureParams(keyId, signedHeaders, signature))
  {
    var hs := SignatureParams(keyId, signedHeaders, signature);
    var pieces := Params(hs);
    assert forall i :: 0 <= i < |hs| ==> '=' !in hs[i].0 && ParamSafe(hs[i].1) && ',' !in hs[i].0;
    assert forall k :: 0 <= k < |pieces| ==> ',' !in pieces[k];
    Text.SplitJoin(pieces, ',');
    ParseParamsOf(hs);
  }

  /** A character of the base64 alphabet (RFC 4648, section 4), padding included. */
  predicate IsBase64Char(c: char) {
    ('A' <= c <= 'Z') || ('a' <= c <= 'z') || ('0' <= c <= '9') || c == '+' || c == '/' || c == '='
  }

  /** What base64 encoding writes: text of the base64 alphabet only. */
  predicate IsBase64(s: string) {
    forall c :: c in s ==> IsBase64Char(c)
  }

  lemma Base64Safe(s: string)
    requires IsBase64(s)
    ensures ParamSafe(s) && '\n' !in s
  {
  }

  /**
   * A verifier that reads the `Signature` header of a GET gets back the key id, the algorithm
   * `rsa-sha256`, the header list `(request-target) host date` and the signature, which is
   * over the string whose lines are the request target (the path only), the host and the
   * IMF-fixdate `Date`. The key id must be free of `,` and `"`, and the encoder must write
   * base64.
   */
  lemma SignGetReadsBack(p: Primitives, host: string, path: string, keyId: string, now: Time.DateTime)
    requires Time.Valid(now)
    requires '\n' !in path && '\n' !in host && ParamSafe(keyId)
    requires IsBase64(p.base64(p.rsaSign(GetSigningString(path, host, Time.ImfFixdate(now)))))
    ensures var r := SignGet(p, host, path, keyId, now);
      var signed := GetSigningString(path, host, r.date);
      && r.date == Time.ImfFixdate(now)
      && Text.Split(signed, '\n') == ["(request-target): get " + path, "host: " + host, "date: " + r.date]
      && ParseSignatureHeader(r.signature) == Some([("keyId", keyId), ("algorithm", "rsa-sha256"),
           ("headers", "(request-target) host date"), ("signature", p.base64(p.rsaSign(signed)))])
  {
    var date := Time.ImfFixdate(now);
    Time.ImfFixdateOneLine(now);
    GetSigningStringLines(path, host, date);
    var signature := p.base64(p.rsaSign(GetSigningString(path, host, date)));
    Base64Safe(signature);
    assert ParamSafe("(request-target) host date");
    ParseSignatureHeaderOf(keyId, "(request-target) host date", signature);
  }

  /**
   * The `Signature` header of a POST reads back the same way, with the header list
   * `(request-target) host date digest`; the signature is over the GET lines (with `post`)
   * and a last line carrying the `Digest`, which is `SHA-256=` and the base64 of the
   * SHA-256 of the body as it stood when `sign` ran.
   */
  lemma SignPostReadsBack(p: Primitives, host: string, path: string, body: string, keyId: string,
                          now: Time.DateTime)
    requires Time.Valid(now)
    requires '\n' !in path && '\n' !in host && ParamSafe(keyId)
    requires IsBase64(p.base64(p.sha256(body)))
    requires IsBase64(p.base64(p.rsaSign(
      PostSigningString(path, host, Time.ImfFixdate(now), DigestValue(p, body)))))
    ensures var r := SignPost(p, host, path, body, keyId, now);
      var signed := PostSigningString(path, host, r.date, r.digest);
      && r.date == Time.ImfFixdate(now)
      && r.digest == "SHA-256=" + p.base64(p.sha256(body))
      && Text.Split(signed, '\n')
           == ["(request-target): post " + path, "host: " + host, "date: " + r.date, "digest: " + r.digest]
      && ParseSignatureHeader(r.signature) == Some([("keyId", keyId), ("algorithm", "rsa-sha256"),
           ("headers", "(request-target) host date digest"), ("signature", p.base64(p.rsaSign(signed)))])
  {
    var date := Time.ImfFixdate(now);
    var digest := DigestValue(p, body);
    Time.ImfFixdateOneLine(now);
    Base64Safe(p.base64(p.sha256(body)));
    assert '\n' !in digest;
    PostSigningStringLines(path, host, date, digest);
    var signature := p.base64(p.rsaSign(PostSigningString(path, host, date, digest)));
    Base64Safe(signature);
    assert ParamSafe("(request-target) host date digest");
    ParseSignatureHeaderOf(keyId, "(request-target) host date digest", signature);
  }

  /** `sign` adds Date and Signature on GET, and Date, Digest and Signature on POST. */
  lemma SignedHeaderNames(p: Primitives, verb: Verb, host: string, path: string, body: string,
                          keyId: string, now: Time.DateTime)
    requires Time.Valid(now)
    ensures Names(SignedHeaders(p, verb, host, path, body, keyId, now))
      == if verb == Get then ["Date", "Signature"] else ["Date", "Digest", "Signature"]
    ensures verb == Post ==>
      Lookup(SignedHeaders(p, verb, host, path, body, keyId, now), "Digest") == Some(DigestValue(p, body))
  {
  }

  /** Only the path is signed: URLs that differ in query or fragment get the same headers. */
  lemma SignaturesIgnoreQuery(p: Primitives, verb: Verb, u: Url.Url, v: Url.Url, body: string,
                              keyId: string, now: Time.DateTime)
    requires Time.Valid(now)
    requires u.host.Some? && v.host == u.host && v.path == u.path
    ensures SignedHeaders(p, verb, u.host.value, u.path, body, keyId, now)
      == SignedHeaders(p, verb, v.host.value, v.path, body, keyId, now)
  {
  }

  /** The `Digest` header of a request describes the payload it carries. */
  predicate DigestMatches(p: Primitives, r: Request) {
    Lookup(r.headers, "Digest") == Some(DigestValue(p, r.payload.GetOr("")))
  }

  /**
   * `HttpWrapper::post_activity` (`ferri-main/src/federation/http.rs`) as written:
   * `post(inbox).sign(key).json(activity).activity().send()`. `None` is the panic of
   * `into_url().unwrap()`; signing runs while the body is still empty. `answers` tells whether
   * the remote answers a POST with a body that reads as text; `ok` is `post_activity`'s `Ok`,
   * and `false` after a sent request is its `Err(LoadFailure)`.
   */
  method PostActivityAsWritten(client: HttpClient, p: Primitives, answers: Request -> bool, keyId: string,
                               inbox: string, activity: string, now: Time.DateTime)
    returns (r: Option<Request>, ok: bool)
    requires Time.Valid(now)
    modifies client
    ensures r.None? <==> IntoUrl(inbox).None?
    ensures ok <==> r.Some? && answers(r.value)
    ensures r.None? ==> client.sent == old(client.sent)
    ensures r.Some? ==> client.sent == old(client.sent) + [r.value]
    ensures client.sent == old(client.sent) + DeliverAsWritten(p, keyId, inbox, activity, now)
    ensures r.Some? ==>
      var u := IntoUrl(inbox).value;
      r.value == Request(Post, u,
        SignedHeaders(p, Post, u.host.value, u.path, "", keyId, now)
          + [("Content-Type", ACTIVITY_JSON), ("Accept", ACTIVITY_JSON)],
        Some(activity))
  {
    var b := client.Open(Post, inbox);
    if b == null {
      return None, false;
    }
    ghost var u := b.url;
    var keyed := b.Sign(p, keyId, now);
    ghost var signed := b.headers;
    assert signed == SignedHeaders(p, Post, u.host.value, u.path, "", keyId, now);
    b.Json(activity);
    b.Activity();
    client.Send(b);
    r := Some(b.Snapshot());
    ok := answers(r.value);
    assert r.value.headers == signed + [("Content-Type", ACTIVITY_JSON), ("Accept", ACTIVITY_JSON)];
  }

  /**
   * The digest `post_activity` sends matches its payload only when that payload hashes
   * like the empty string: for any real activity the remote inbox sees a wrong `Digest`.
   */
  lemma PostActivityDigestMismatch(p: Primitives, u: Url.Url, keyId: string, activity: string, now: Time.DateTime)
    requires Time.Valid(now) && u.host.Some?
    ensures DigestMatches(p, Request(Post, u,
        SignedHeaders(p, Post, u.host.value, u.path, "", keyId, now)
          + [("Content-Type", ACTIVITY_JSON), ("Accept", ACTIVITY_JSON)],
        Some(activity)))
      <==> DigestValue(p, "") == DigestValue(p, activity)
  {
    var s := SignPost(p, u.host.value, u.path, "", keyId, now);
    var hs := [("Date", s.date), ("Digest", s.digest), ("Signature", s.signature)]
      + [("Content-Type", ACTIVITY_JSON), ("Accept", ACTIVITY_JSON)];
    assert SignedHeaders(p, Post, u.host.value, u.path, "", keyId, now)
      + [("Content-Type", ACTIVITY_JSON), ("Accept", ACTIVITY_JSON)] == hs;
    assert hs[1..][0] == ("Digest", s.digest);
    assert Lookup(hs, "Digest") == Some(s.digest);
  }

  /** A concrete instance: with a hash that tells "" from "{}" the digest is wrong. */
  lemma PostActivityDigestMismatchExample()
    ensures
      var p := Primitives(s => if |s| == 0 then [] else [1], b => if |b| == 0 then "" else "AQ==", s => []);
      DigestValue(p, "") != DigestValue(p, "{}")
  {
    var p := Primitives(s => if |s| == 0 then [] else [1], b => if |b| == 0 then "" else "AQ==", s => []);
    assert p.sha256("{}") == [1];
    assert DigestValue(p, "{}") == "SHA-256=AQ==";
  }

  /**
   * What `post_activity` as written puts on the wire: one POST carrying `body`, whose signature
   * headers were computed over the empty body and come before the media types, or nothing (the
   * `unwrap` panics) for an inbox that is not a URL with a host.
   */
  function DeliverAsWritten(p: Primitives, keyId: string, inbox: string, body: string, now: Time.Instant)
    : (r: seq<Request>)
    ensures |r| <= 1 && (|r| == 1 <==> IntoUrl(inbox).Some?)
    ensures |r| == 1 ==>
      r[0].verb == Post && r[0].url == IntoUrl(inbox).value && r[0].payload == Some(body)
  {
    match IntoUrl(inbox)
    case None => []
    case Some(u) =>
      [Request(Post, u,
        SignedHeaders(p, Post, u.host.value, u.path, "", keyId, now) + Preamble(),
        Some(body))]
  }

  /**
   * The POST `post_activity` sends carries the digest and the signature of the empty body, with
   * the given key; its digest describes its payload only when that payload hashes like "".
   */
  lemma DeliverAsWrittenSigned(p: Primitives, keyId: string, inbox: string, body: string, now: Time.Instant)
    requires IntoUrl(inbox).Some?
    ensures
      var r := DeliverAsWritten(p, keyId, inbox, body, now)[0];
      var u := IntoUrl(inbox).value;
      && Lookup(r.headers, "Digest") == Some(DigestValue(p, ""))
      && Lookup(r.headers, "Signature")
           == Some(SignPost(p, u.host.value, u.path, "", keyId, now).signature)
      && (DigestMatches(p, r) <==> DigestValue(p, "") == DigestValue(p, body))
  {
    var u := IntoUrl(inbox).value;
    var s := SignPost(p, u.host.value, u.path, "", keyId, now);
    var hs := DeliverAsWritten(p, keyId, inbox, body, now)[0].headers;
    assert hs == [("Date", s.date), ("Digest", s.digest), ("Signature", s.signature)] + Preamble();
    assert hs[1..][0] == ("Digest", s.digest);
    assert hs[1..][1..][0] == ("Signature", s.signature);
    assert Lookup(hs[1..][1..], "Signature") == Some(s.signature);
  }

  /**
   * `post_activity` with the payload set before signing, the order `Outbox::post`
   * (`ferri-main/src/ap/activity.rs`) uses: the digest always matches the payload. `ok` is
   * whether the remote answered the POST with a body that reads as text.
   */
  method PostActivity(client: HttpClient, p: Primitives, answers: Request -> bool, keyId: string,
                      inbox: string, activity: string, now: Time.DateTime)
    returns (r: Option<Request>, ok: bool)
    requires Time.Valid(now)
    modifies client
    ensures r.None? <==> IntoUrl(inbox).None?
    ensures ok <==> r.Some? && answers(r.value)
    ensures r.None? ==> client.sent == old(client.sent)
    ensures r.Some? ==> client.sent == old(client.sent) + [r.value]
    ensures client.sent == old(client.sent) + Deliver(p, keyId, inbox, activity, now)
    ensures r.Some? ==> DigestMatches(p, r.value)
    ensures r.Some? ==>
      var u := IntoUrl(inbox).value;
      r.value == Request(Post, u,
        [("Content-Type", ACTIVITY_JSON), ("Accept", ACTIVITY_JSON)]
          + SignedHeaders(p, Post, u.host.value, u.path, activity, keyId, now),
        Some(activity))
  {
    var b := client.Open(Post, inbox);
    if b == null {
      return None, false;
    }
    ghost var u := IntoUrl(inbox).value;
    ghost var req := Request(Post, u, Preamble() + SignedHeaders(p, Post, u.host.value, u.path, activity, keyId, now),
                             Some(activity));
    assert Deliver(p, keyId, inbox, activity, now) == [req];
    DeliverSigned(p, keyId, inbox, activity, now);
    b.Activity();
    assert b.headers == Preamble();
    b.Json(activity);
    var keyed := b.Sign(p, keyId, now);
    assert b.Snapshot() == req;
    client.Send(b);
    r := Some(b.Snapshot());
    ok := answers(r.value);
  }

  /**
   * What `post_activity` of `body` to `inbox` puts on the wire: one POST carrying the
   * ActivityStreams media types and the signature headers over `body`, or nothing (the
   * `unwrap` panics) for an inbox that is not a URL with a host.
   */
  function Deliver(p: Primitives, keyId: string, inbox: string, body: string, now: Time.Instant)
    : (r: seq<Request>)
    ensures |r| <= 1 && (|r| == 1 <==> IntoUrl(inbox).Some?)
    ensures |r| == 1 ==>
      r[0].verb == Post && r[0].url == IntoUrl(inbox).value && r[0].payload == Some(body)
  {
    match IntoUrl(inbox)
    case None => []
    case Some(u) =>
      [Request(Post, u,
        Preamble() + SignedHeaders(p, Post, u.host.value, u.path, body, keyId, now),
        Some(body))]
  }

  /** A delivered POST is signed with the given key over its own body, and its digest matches it. */
  lemma DeliverSigned(p: Primitives, keyId: string, inbox: string, body: string, now: Time.Instant)
    requires IntoUrl(inbox).Some?
    ensures
      var r := Deliver(p, keyId, inbox, body, now)[0];
      var u := IntoUrl(inbox).value;
      && DigestMatches(p, r)
      && Lookup(r.headers, "Signature")
           == Some(SignPost(p, u.host.value, u.path, body, keyId, now).signature)
  {
    var u := IntoUrl(inbox).value;
    var s := SignPost(p, u.host.value, u.path, body, keyId, now);
    var signed := SignedHeaders(p, Post, u.host.value, u.path, body, keyId, now);
    assert signed == [("Date", s.date), ("Digest", s.digest), ("Signature", s.signature)];
    var hs := Deliver(p, keyId, inbox, body, now)[0].headers;
    assert hs == Preamble() + signed;
    PreambleSkipped(signed, "Digest");
    PreambleSkipped(signed, "Signature");
    PostHeadersFound(s.date, s.digest, s.signature);
  }

  /** The digest and the signature are found among the headers a POST is signed with. */
  lemma PostHeadersFound(date: string, digest: string, signature: string)
    ensures var hs := [("Date", date), ("Digest", digest), ("Signature", signature)];
      Lookup(hs, "Digest") == Some(digest) && Lookup(hs, "Signature") == Some(signature)
  {
    var hs := [("Date", date), ("Digest", digest), ("Signature", signature)];
    assert hs[1..] == [("Digest", digest), ("Signature", signature)];
    assert hs[1..][1..] == [("Signature", signature)];
    assert Lookup(hs[1..][1..], "Signature") == Some(signature);
    assert Lookup(hs[1..], "Signature") == Some(signature);
  }

  /** The media-type headers `activity` puts before the signature. */
  function Preamble(): seq<Header> {
    [("Content-Type", ACTIVITY_JSON), ("Accept", ACTIVITY_JSON)]
  }

  /** Looking a signature header up skips the media-type headers. */
  lemma PreambleSkipped(hs: seq<Header>, name: string)
    requires name != "Content-Type" && name != "Accept"
    ensures Lookup(Preamble() + hs, name) == Lookup(hs, name)
  {
    assert (Preamble() + hs)[1..][1..] == hs;
  }

  /** `HttpWrapper::get` (the fetch of a Person or a Note): `get(url).sign(key).activity().send()`. */
  method SignedGet(client: HttpClient, p: Primitives, keyId: string, target: string,
                   now: Time.DateTime) returns (r: Option<Request>)
    requires Time.Valid(now)
    modifies client
    ensures r.None? <==> IntoUrl(target).None?
    ensures r.None? ==> client.sent == old(client.sent)
    ensures r.Some? ==> client.sent == old(client.sent) + [r.value]
    ensures r.Some? ==>
      var u := IntoUrl(target).value;
      r.value == Request(Get, u,
        SignedHeaders(p, Get, u.host.value, u.path, "", keyId, now)
          + [("Content-Type", ACTIVITY_JSON), ("Accept", ACTIVITY_JSON)],
        None)
  {
    var b := client.Open(Get, target);
    if b == null {
      return None;
    }
    ghost var u := IntoUrl(target).value;
    ghost var signed := SignedHeaders(p, Get, u.host.value, u.path, "", keyId, now);
    var ok := b.Sign(p, keyId, now);
    assert b.headers == [] + signed;
    b.Activity();
    assert b.headers == signed + [("Content-Type", ACTIVITY_JSON), ("Accept", ACTIVITY_JSON)];
    client.Send(b);
    return Some(b.Snapshot());
  }
}
