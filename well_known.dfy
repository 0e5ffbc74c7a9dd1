/**
 * The discovery documents of the server (`ferri-server/src/endpoints/well_known.rs`): the
 * constant host-meta XRD, whose `lrdd` template points at the WebFinger endpoint, and the
 * WebFinger JRD of section 4.4 of RFC 7033 for an `acct:` resource.
 */
module WellKnown {
  import opened Wrappers
  import opened Store
  import Text
  import Api = ApiTypes
  import Get
  import Site
  import Ap = ApTypes

  const WEBFINGER_PATH := "/.well-known/webfinger"
  /** `https://ferri.amy.mov/.well-known/webfinger`. */
  const WEBFINGER_ENDPOINT := "https://" + Ap.LOCAL_HOST + WEBFINGER_PATH
  /** The `lrdd` template: the WebFinger endpoint, the resource left as `{uri}`. */
  const LRDD_TEMPLATE := WEBFINGER_ENDPOINT + "?resource={uri}"
  const PROFILE_PAGE_REL := "http://webfinger.net/rel/profile-page"
  const ACTIVITY_JSON := "application/activity+json"

  const XRD_HEAD := "\n      <?xml version=\"1.0\" encoding=\"UTF-8\"?>\n      <XRD xmlns=\"http://docs.oasis-open.org/ns/xri/xrd-1.0\">\n        <Link rel=\"lrdd\" template=\""
  const XRD_TAIL := "\"/>\n      </XRD>\n    "

  /** `host_meta`: the constant XRD document; its one link is the `lrdd` template. */
  function HostMeta(): string {
    XRD_HEAD + LRDD_TEMPLATE + XRD_TAIL
  }

  /** A template filled in: its `{uri}` suffix replaced by `uri`. */
  function Expand(template: string, uri: string): (r: string)
    requires |template| >= 5 && template[|template| - 5..] == "{uri}"
  {
    template[..|template| - 5] + uri
  }

  /**
   * The template host-meta carries, right after the opening of its one `Link`, is the
   * `lrdd` template; filled in with an `acct:` resource it is the WebFinger endpoint queried
   * for that resource.
   */
  lemma HostMetaLrdd(acct: string)
    ensures Text.StripPrefix(HostMeta(), XRD_HEAD) == Some(LRDD_TEMPLATE + XRD_TAIL)
    ensures |LRDD_TEMPLATE| >= 5 && LRDD_TEMPLATE[|LRDD_TEMPLATE| - 5..] == "{uri}"
    ensures Expand(LRDD_TEMPLATE, "acct:" + acct) == WEBFINGER_ENDPOINT + "?resource=acct:" + acct
  {
    assert HostMeta()[|XRD_HEAD|..] == LRDD_TEMPLATE + XRD_TAIL;
    assert LRDD_TEMPLATE[..|LRDD_TEMPLATE| - 5] == WEBFINGER_ENDPOINT + "?resource=";
  }

  /** The JRD for a local user. */
  function HitFor(site: Site.Site, resource: string, id: string, username: string): Api.WebfingerHit {
    Api.WebfingerHit(
      resource,
      [site.userUrl(id), site.userWebUrl(username)],
      [Api.WebfingerLink(PROFILE_PAGE_REL, Some("text/html"), Some(site.userWebUrl(username))),
       Api.WebfingerLink("self", Some(ACTIVITY_JSON), Some(site.userUrl(id)))])
  }

  /** The username a resource names: the text between `acct:` and the first `@`. */
  function ResourceUser(resource: string): (r: Option<string>)
    ensures r.Some? <==> "acct:" <= resource && '@' in resource[5..]
    ensures r.Some? ==> '@' !in r.value && "acct:" + r.value + "@" <= resource
  {
    match Text.StripPrefix(resource, "acct:")
    case None => None
    case Some(acct) =>
      match Text.SplitOnce(acct, '@')
      case None => None
      case Some((user, host)) =>
        assert resource == "acct:" + user + "@" + host;
        Some(user)
  }

  /** The resource `acct:<user>@<host>` names `<user>`. */
  lemma ResourceUserNamed(name: string, host: string)
    requires '@' !in name
    ensures ResourceUser("acct:" + name + "@" + host) == Some(name)
  {
    var resource := "acct:" + name + "@" + host;
    assert resource[5..] == name + ['@'] + host;
    Text.SplitOnceAt(name, host, '@');
  }

  /**
   * `webfinger`: a resource not of the form `acct:<user>@<host>`, or naming no user that
   * `user_by_username` reads, panics (`None`); otherwise the JRD of that user.
   */
  function Webfinger(t: Tables, site: Site.Site, resource: string): (r: Option<Api.WebfingerHit>)
  {
    match ResourceUser(resource)
    case None => None
    case Some(name) =>
      match Get.UserByUsername(t, name)
      case Got(user) => Some(HitFor(site, resource, user.id, user.username))
      case _ => None
  }

  /**
   * The JRD answered: the subject echoes the resource, the aliases are the user's
   * ActivityPub and web URLs, and the links are exactly the profile page (HTML, web URL) and
   * `self` (ActivityPub JSON, ActivityPub URL) of a stored user with the resource's name.
   */
  lemma WebfingerShape(t: Tables, site: Site.Site, resource: string)
    ensures Webfinger(t, site, resource).Some? <==>
      ResourceUser(resource).Some? && Get.UserByUsername(t, ResourceUser(resource).value).Got?
    ensures Webfinger(t, site, resource).Some? ==>
      var hit := Webfinger(t, site, resource).value;
      var name := ResourceUser(resource).value;
      && "acct:" + name + "@" <= resource
      && hit.subject == resource
      && exists i :: (0 <= i < |t.user| && t.user[i].username == name
           && hit.aliases == [site.userUrl(t.user[i].id), site.userWebUrl(name)]
           && |hit.links| == 2
           && hit.links[0] == Api.WebfingerLink(PROFILE_PAGE_REL, Some("text/html"), Some(site.userWebUrl(name)))
           && hit.links[1] == Api.WebfingerLink("self", Some(ACTIVITY_JSON), Some(site.userUrl(t.user[i].id))))
  {
    if Webfinger(t, site, resource).Some? {
      var name := ResourceUser(resource).value;
      Get.UsersCarryKeyId(t, "", name, "");
      var user := Get.UserByUsername(t, name).value;
      var i :| 0 <= i < |t.user| && (t.user[i].username == name) && user.id == t.user[i].id;
    }
  }

  /** The host after the `@` is never looked at: the same user answers for any host. */
  lemma WebfingerIgnoresHost(t: Tables, site: Site.Site, name: string, host1: string, host2: string)
    requires '@' !in name
    ensures var r1 := Webfinger(t, site, "acct:" + name + "@" + host1);
      var r2 := Webfinger(t, site, "acct:" + name + "@" + host2);
      && r1.Some? == r2.Some?
      && (r1.Some? ==> r1.value.aliases == r2.value.aliases && r1.value.links == r2.value.links)
  {
    ResourceUserNamed(name, host1);
    ResourceUserNamed(name, host2);
  }

  /** A resource without a host, `acct:<user>` alone, panics. */
  lemma WebfingerNeedsHost(t: Tables, site: Site.Site, name: string)
    requires '@' !in name
    ensures Webfinger(t, site, "acct:" + name).None?
  {
    assert ("acct:" + name)[5..] == name;
  }
}
