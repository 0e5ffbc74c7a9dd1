/**
 * Loading remote documents (`HttpWrapper::get`, `get_person` and `get_note` of
 * `ferri-main/src/federation/http.rs`): a signed GET goes on the wire, and what the remote
 * server answers, once parsed, is an input of the model.
 */
module Fetch {
  import opened Wrappers
  import Time
  import Http
  import Ap = ApTypes

  /**
   * The remote side: the Person or the Note served at a URL, `None` where the load or
   * the parse fails.
   */
  datatype Remote = Remote(person: string -> Option<Ap.Person>, note: string -> Option<Ap.Post>)

  /** The Person a fetch of `url` yields: nothing for a URL the client refuses. */
  function PersonAt(remote: Remote, url: string): (r: Option<Ap.Person>)
    ensures Http.IntoUrl(url).None? ==> r.None?
  {
    if Http.IntoUrl(url).Some? then remote.person(url) else None
  }

  function NoteAt(remote: Remote, url: string): (r: Option<Ap.Post>)
    ensures Http.IntoUrl(url).None? ==> r.None?
  {
    if Http.IntoUrl(url).Some? then remote.note(url) else None
  }

  /**
   * What a fetch of `url` puts on the wire: one GET signed with `keyId` carrying the
   * ActivityStreams media types, or nothing for a URL the client refuses.
   */
  function GetOf(p: Http.Primitives, keyId: string, url: string, now: Time.Instant): (r: seq<Http.Request>)
    ensures |r| <= 1 && (|r| == 1 <==> Http.IntoUrl(url).Some?)
    ensures |r| == 1 ==> r[0].verb == Http.Get && r[0].url == Http.IntoUrl(url).value && r[0].payload.None?
  {
    match Http.IntoUrl(url)
    case None => []
    case Some(u) =>
      [Http.Request(Http.Get, u,
        Http.SignedHeaders(p, Http.Get, u.host.value, u.path, "", keyId, now)
          + [("Content-Type", Http.ACTIVITY_JSON), ("Accept", Http.ACTIVITY_JSON)],
        None)]
  }

  /** Every fetch is signed: its GET carries a `Signature` header made with the given key. */
  lemma GetOfSigned(p: Http.Primitives, keyId: string, url: string, now: Time.Instant)
    requires Http.IntoUrl(url).Some?
    ensures
      var r := GetOf(p, keyId, url, now)[0];
      var u := Http.IntoUrl(url).value;
      var s := Http.SignGet(p, u.host.value, u.path, keyId, now);
      Http.Lookup(r.headers, "Signature") == Some(s.signature)
  {
    var u := Http.IntoUrl(url).value;
    var s := Http.SignGet(p, u.host.value, u.path, keyId, now);
    var hs := GetOf(p, keyId, url, now)[0].headers;
    assert hs == [("Date", s.date), ("Signature", s.signature),
                  ("Content-Type", Http.ACTIVITY_JSON), ("Accept", Http.ACTIVITY_JSON)];
    assert hs[1..][0] == ("Signature", s.signature);
  }

  /** `get_person`. */
  method GetPerson(client: Http.HttpClient, p: Http.Primitives, remote: Remote, keyId: string,
                   url: string, now: Time.Instant) returns (r: Option<Ap.Person>)
    modifies client
    ensures r == PersonAt(remote, url)
    ensures client.sent == old(client.sent) + GetOf(p, keyId, url, now)
  {
    var req := Http.SignedGet(client, p, keyId, url, now);
    if req.None? {
      return None;
    }
    return remote.person(url);
  }

  /** `get_note`. */
  method GetNote(client: Http.HttpClient, p: Http.Primitives, remote: Remote, keyId: string,
                 url: string, now: Time.Instant) returns (r: Option<Ap.Post>)
    modifies client
    ensures r == NoteAt(remote, url)
    ensures client.sent == old(client.sent) + GetOf(p, keyId, url, now)
  {
    var req := Http.SignedGet(client, p, keyId, url, now);
    if req.None? {
      return None;
    }
    return remote.note(url);
  }
}
