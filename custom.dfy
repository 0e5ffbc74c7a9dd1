/**
 * Fingering a remote account (`ferri-server/src/endpoints/custom.rs`): `finger_account`
 * splits `user@host`, resolves the Person through the host's WebFinger endpoint and its
 * ActivityPub link (`resolve_user`), then stores the actor and a user for it and answers the
 * local URL of a freshly drawn id.
 */
module Custom {
  import opened Wrappers
  import opened Store
  import Text
  import Db = DbTypes
  import Api = ApiTypes
  import Ap = ApTypes
  import Oracle
  import Get
  import Site
  import WellKnown

  /**
   * The remote servers as this model sees them: what a WebFinger URL answers, and what an
   * actor URL answers when fetched as ActivityPub JSON. `None` is a failed request or a body
   * that does not decode; both are panics in `resolve_user`.
   */
  datatype Network = Network(
    webfinger: string -> Option<Api.WebfingerHit>,
    person: string -> Option<Ap.Person>)

  /** The WebFinger query `resolve_user` sends: the account name alone as `acct:` resource. */
  function FingerUrl(host: string, acct: string): string {
    FingerBase(host) + acct
  }

  function FingerBase(host: string): string {
    "https://" + host + WellKnown.WEBFINGER_PATH + "?resource=acct:"
  }

  predicate IsActorLink(l: Api.WebfingerLink) {
    l.ty == Some(WellKnown.ACTIVITY_JSON)
  }

  /** The first link typed as ActivityPub JSON. */
  function ActorLink(links: seq<Api.WebfingerLink>): (r: Option<Api.WebfingerLink>)
    ensures r.None? <==> forall i :: 0 <= i < |links| ==> !IsActorLink(links[i])
    ensures r.Some? ==>
      exists i :: (0 <= i < |links| && links[i] == r.value && IsActorLink(links[i])
        && forall j :: 0 <= j < i ==> !IsActorLink(links[j]))
  {
    if |links| == 0 then None
    else if IsActorLink(links[0]) then Some(links[0])
    else
      var r := ActorLink(links[1..]);
      assert forall i :: 1 <= i < |links| ==> links[i] == links[1..][i - 1];
      if r.Some? then
        var i :| 0 <= i < |links[1..]| && links[1..][i] == r.value && IsActorLink(links[1..][i])
          && forall j :: 0 <= j < i ==> !IsActorLink(links[1..][j]);
        assert links[i + 1] == r.value;
        assert forall j :: 0 <= j < i + 1 ==> !IsActorLink(links[j]) by {
          forall j | 0 <= j < i + 1
            ensures !IsActorLink(links[j])
          {
            if j > 0 { assert links[j] == links[1..][j - 1]; }
          }
        }
        r
      else
        r
  }

  /**
   * `resolve_user`: the JRD of `acct` at `host`, its ActivityPub link and that link's
   * `href`, fetched as a Person. Any step that finds nothing is a panic (`None`).
   */
  function ResolveUser(net: Network, acct: string, host: string): (r: Option<Ap.Person>)
    ensures r.Some? ==>
      && net.webfinger(FingerUrl(host, acct)).Some?
      && ActorLink(net.webfinger(FingerUrl(host, acct)).value.links).Some?
      && ActorLink(net.webfinger(FingerUrl(host, acct)).value.links).value.href.Some?
      && r == net.person(ActorLink(net.webfinger(FingerUrl(host, acct)).value.links).value.href.value)
  {
    match net.webfinger(FingerUrl(host, acct))
    case None => None
    case Some(wf) =>
      match ActorLink(wf.links)
      case None => None
      case Some(link) =>
        match link.href
        case None => None
        case Some(href) => net.person(href)
  }

  /** What `finger_account` leaves: the tables, the id source's position and the reply (`None`: a panic). */
  datatype Fingered = Fingered(tables: Tables, next: nat, reply: Option<string>)

  /** The user row `finger_account` writes; the columns it does not name are NULL. */
  function FingeredUser(p: Ap.Person, host: string, id: string): UserRow {
    UserRow(id, None, None, None, None, p.name + "@" + host, p.obj.id, p.preferredUsername, None)
  }

  /**
   * `finger_account`: an account without `@` and an unresolved Person are panics before
   * anything is written; the actor row is insert-or-ignore on its id; the id is drawn; the
   * user row is insert-or-ignore on `actor_id`, and a clash on the drawn id is a panic after
   * the actor row is written.
   */
  function FingerEffect(t: Tables, src: nat -> string, n: nat, net: Network, account: string): Fingered {
    match Text.SplitOnce(account, '@')
    case None => Fingered(t, n, None)
    case Some((name, host)) =>
      match ResolveUser(net, name, host)
      case None => Fingered(t, n, None)
      case Some(p) =>
        OneKey(t.actor, ActorRow(p.obj.id, p.inbox, p.outbox), ActorId);
        var actors := InsertOrIgnore(t.actor, ActorRow(p.obj.id, p.inbox, p.outbox), ActorId, ActorKeys());
        var t1 := t.(actor := actors.value);
        match InsertOrIgnore(t1.user, FingeredUser(p, host, src(n)), UserActorId, UserKeys())
        case None => Fingered(t1, n + 1, None)
        case Some(users) => Fingered(t1.(user := users), n + 1, Some(Db.USERS_BASE + src(n)))
  }

  method FingerAccount(conn: Connection, ids: Oracle.Ids, net: Network, account: string)
    returns (reply: Option<string>)
    modifies conn, ids
    ensures var e := FingerEffect(old(conn.tables), ids.source, old(ids.next), net, account);
      conn.tables == e.tables && ids.next == e.next && reply == e.reply
  {
    var split := Text.SplitOnce(account, '@');
    if split.None? {
      return None;
    }
    var (name, host) := split.value;
    var user := ResolveUser(net, name, host);
    if user.None? {
      return None;
    }
    var p := user.value;
    OneKey(conn.tables.actor, ActorRow(p.obj.id, p.inbox, p.outbox), ActorId);
    var actors := InsertOrIgnore(conn.tables.actor, ActorRow(p.obj.id, p.inbox, p.outbox), ActorId, ActorKeys());
    conn.tables := conn.tables.(actor := actors.value);
    var uuid := ids.Fresh();
    var users := InsertOrIgnore(conn.tables.user, FingeredUser(p, host, uuid), UserActorId, UserKeys());
    if users.None? {
      return None;
    }
    conn.tables := conn.tables.(user := users.value);
    reply := Some(Db.USERS_BASE + uuid);
  }

  /** An account without `@` panics at once: nothing is written and no id is drawn. */
  lemma FingerNeedsAt(t: Tables, src: nat -> string, n: nat, net: Network, account: string)
    requires '@' !in account
    ensures FingerEffect(t, src, n, net, account) == Fingered(t, n, None)
  {
  }

  /**
   * Once `user@host` is resolved to a Person: the actor is stored (or already was);
   * the reply is the local URL of the id drawn, whether or not a user was written; a new
   * actor gains a user named `<name>@<host>` under that id, unless the id is taken, which
   * panics. For an actor that already had a user, nothing is added to the user table, so
   * the reply names an id no user carries whenever the drawn id was not already one.
   */
  lemma FingerStores(t: Tables, src: nat -> string, n: nat, net: Network, name: string, host: string)
    requires '@' !in name && ResolveUser(net, name, host).Some?
    ensures var p := ResolveUser(net, name, host).value;
      var e := FingerEffect(t, src, n, net, name + "@" + host);
      && e.next == n + 1
      && e.tables.(actor := t.actor, user := t.user) == t
      && e.tables.actor == (if Taken(t.actor, ActorId, p.obj.id) then t.actor
                            else t.actor + [ActorRow(p.obj.id, p.inbox, p.outbox)])
      && (Taken(t.user, UserActorId, p.obj.id) ==>
            && e.tables.user == t.user && e.reply == Some(Db.USERS_BASE + src(n))
            && (!Taken(t.user, UserId, src(n)) ==> !Taken(e.tables.user, UserId, src(n))))
      && (!Taken(t.user, UserActorId, p.obj.id) ==>
            && (e.reply.Some? <==> !Taken(t.user, UserId, src(n)))
            && (e.reply.Some? ==>
                  e.reply == Some(Db.USERS_BASE + src(n)) && e.tables.user == t.user + [FingeredUser(p, host, src(n))])
            && (e.reply.None? ==> e.tables.user == t.user))
  {
    Text.SplitOnceAt(name, host, '@');
    assert name + "@" + host == name + ['@'] + host;
    var p := ResolveUser(net, name, host).value;
    OneKey(t.actor, ActorRow(p.obj.id, p.inbox, p.outbox), ActorId);
    TwoKeys(t.user, FingeredUser(p, host, src(n)), UserId, UserActorId);
  }

  /** A Person that cannot be resolved panics before anything is written. */
  lemma FingerUnresolved(t: Tables, src: nat -> string, n: nat, net: Network, name: string, host: string)
    requires '@' !in name && ResolveUser(net, name, host).None?
    ensures FingerEffect(t, src, n, net, name + "@" + host) == Fingered(t, n, None)
  {
    Text.SplitOnceAt(name, host, '@');
    assert name + "@" + host == name + ['@'] + host;
  }

  /** Fingering keeps every unique key of every table unique. */
  lemma FingerKeepsValid(t: Tables, src: nat -> string, n: nat, net: Network, account: string)
    requires Valid(t)
    ensures Valid(FingerEffect(t, src, n, net, account).tables)
  {
    match Text.SplitOnce(account, '@')
    case None =>
    case Some((name, host)) =>
      match ResolveUser(net, name, host)
      case None =>
      case Some(p) =>
        var row := ActorRow(p.obj.id, p.inbox, p.outbox);
        OneKey(t.actor, row, ActorId);
        InsertOrIgnoreKeepsUnique(t.actor, row, ActorId, ActorKeys());
        var t1 := t.(actor := InsertOrIgnore(t.actor, row, ActorId, ActorKeys()).value);
        var urow := FingeredUser(p, host, src(n));
        if InsertOrIgnore(t1.user, urow, UserActorId, UserKeys()).Some? {
          InsertOrIgnoreKeepsUnique(t1.user, urow, UserActorId, UserKeys());
        }
  }

  /** Against this server's own host, the WebFinger query is the `lrdd` template host-meta advertises, filled in. */
  lemma FingerUrlFollowsHostMeta(acct: string)
    ensures FingerUrl(Ap.LOCAL_HOST, acct) == WellKnown.Expand(WellKnown.LRDD_TEMPLATE, "acct:" + acct)
  {
    WellKnown.HostMetaLrdd(acct);
    assert "?resource=acct:" == "?resource=" + "acct:";
  }

  /** The link `resolve_user` follows in this server's own JRD is `self`, pointing at the user's ActivityPub URL. */
  lemma ActorLinkOfOwnHit(site: Site.Site, resource: string, id: string, username: string)
    ensures ActorLink(WellKnown.HitFor(site, resource, id, username).links)
      == Some(Api.WebfingerLink("self", Some(WellKnown.ACTIVITY_JSON), Some(site.userUrl(id))))
  {
    var links := WellKnown.HitFor(site, resource, id, username).links;
    assert !IsActorLink(links[0]) && IsActorLink(links[1]);
    assert links[1..][0] == links[1];
  }

  /**
   * `resolve_user` sends the name without its host, and this server's own `webfinger`
   * answers only `acct:<user>@<host>`: fingering an account on a server that answers as
   * this one does always panics.
   */
  lemma FingerOwnServerFails(t: Tables, site: Site.Site, net: Network, name: string, host: string)
    requires '@' !in name
    requires net.webfinger(FingerUrl(host, name)) == WellKnown.Webfinger(t, site, "acct:" + name)
    ensures ResolveUser(net, name, host).None?
  {
    WellKnown.WebfingerNeedsHost(t, site, name);
  }

  /**
   * Given a resource with its host, the same server resolves a stored user: the Person
   * fetched is the one at that user's ActivityPub URL.
   */
  lemma FingerOwnServerWithHost(t: Tables, site: Site.Site, net: Network, name: string, host: string)
    requires '@' !in name && Get.UserByUsername(t, name).Got?
    requires net.webfinger(FingerUrl(host, name + "@" + host))
      == WellKnown.Webfinger(t, site, "acct:" + name + "@" + host)
    ensures ResolveUser(net, name + "@" + host, host)
      == net.person(site.userUrl(Get.UserByUsername(t, name).value.id))
  {
    var resource := "acct:" + name + "@" + host;
    WellKnown.ResourceUserNamed(name, host);
    var user := Get.UserByUsername(t, name).value;
    var hit := WellKnown.HitFor(site, resource, user.id, user.username);
    assert WellKnown.Webfinger(t, site, resource) == Some(hit);
    ActorLinkOfOwnHit(site, resource, user.id, user.username);
  }
}
