/** The four conversions between store, ActivityStreams and client shapes (`ferri-main/src/types/convert.rs`). */
module Convert {
  import opened Wrappers
  import Time
  import Url
  import Text
  import Ap = ApTypes
  import Db = DbTypes
  import Api = ApiTypes

  /** The avatar and header every account shows. */
  const PFP := "https://ferri.amy.mov/assets/pfp.png"

  /** A store actor as an ActivityStreams actor: the standard context, the same URIs. */
  function ActorToAp(a: Db.Actor): (r: Ap.Actor)
    ensures r.obj.context == Ap.AsContext()
    ensures (r.obj.id, r.inbox, r.outbox) == (a.id, a.inbox, a.outbox)
  {
    Ap.Actor(Ap.Object(Ap.AsContext(), a.id), a.inbox, a.outbox)
  }

  /** An ActivityStreams actor as a store actor: the context is dropped. */
  function ActorToDb(a: Ap.Actor): (r: Db.Actor)
    ensures (r.id, r.inbox, r.outbox) == (a.obj.id, a.inbox, a.outbox)
  {
    Db.Actor(a.obj.id, a.inbox, a.outbox)
  }

  /** Store to ActivityStreams and back is the identity. */
  lemma ActorRoundTrip(a: Db.Actor)
    ensures ActorToDb(ActorToAp(a)) == a
  {
  }

  /** The other way round only the context is lost: it comes back exactly when it was the standard one. */
  lemma ActorRoundTripAp(a: Ap.Actor)
    ensures ActorToAp(ActorToDb(a)) == a <==> a.obj.context == Ap.AsContext()
  {
  }

  /**
   * A user as a client account: no counters, never locked nor a bot, the shared picture,
   * and the times written as RFC 3339.
   */
  function AccountOf(u: Db.User): (r: Api.Account)
    ensures (r.id, r.username, r.acct, r.displayName, r.url) == (u.id, u.username, u.acct, u.displayName, u.url)
    ensures !r.locked && !r.bot && r.note == "" && r.attributionDomains == []
    ensures r.followersCount == 0 && r.followingCount == 0 && r.statusesCount == 0
    ensures r.avatar == r.avatarStatic == r.header == r.headerStatic == PFP
    ensures r.lastStatusAt.Some? <==> u.lastPostAt.Some?
  {
    Api.Account(
      u.id, u.username, u.acct, u.displayName, false, false,
      Time.ToRfc3339(u.createdAt), [], "", u.url, PFP, PFP, PFP, PFP, 0, 0, 0,
      match u.lastPostAt
      case None => None
      case Some(ts) => Some(Time.ToRfc3339(ts)))
  }

  /** The account's times read back as the user's own instants. */
  lemma AccountTimesParse(u: Db.User)
    requires Time.FourDigitYear(u.createdAt)
    requires u.lastPostAt.Some? ==> Time.FourDigitYear(u.lastPostAt.value)
    ensures Time.ParseRfc3339(AccountOf(u).createdAt) == Some(u.createdAt)
    ensures u.lastPostAt.Some? ==> Time.ParseRfc3339(AccountOf(u).lastStatusAt.value) == u.lastPostAt
  {
    Time.ParseRfc3339Of(u.createdAt);
    if u.lastPostAt.Some? {
      Time.ParseRfc3339Of(u.lastPostAt.value);
    }
  }

  /** The profile URL of a local user: the users base followed by the id, which reads back. */
  function UserUri(id: string): (r: string)
    ensures Db.USERS_BASE <= r
    ensures Text.StripPrefix(r, Db.USERS_BASE) == Some(id)
  {
    var r := Db.USERS_BASE + id;
    assert r[|Db.USERS_BASE|..] == id;
    r
  }

  /** Distinct users have distinct profile URLs. */
  lemma UserUriInjective(a: string, b: string)
    requires UserUri(a) == UserUri(b)
    ensures a == b
  {
  }

  /**
   * A local user as the Person other servers fetch: every URL is built from the user id,
   * the preferred username is the display name and the name the username.
   * `publicPem` is the key file the server embeds.
   */
  function PersonOf(u: Db.User, publicPem: string): (r: Ap.Person)
    ensures r.obj.context == Ap.AsContext() && r.ty == Ap.ActivityType.Person
    ensures r.obj.id == UserUri(u.id)
    ensures r.following == UserUri(u.id) + "/following" && r.followers == UserUri(u.id) + "/followers"
    ensures r.inbox == UserUri(u.id) + "/inbox" && r.outbox == UserUri(u.id) + "/outbox"
    ensures r.preferredUsername == u.displayName && r.name == u.username
    ensures r.summary == "ferri " + u.username
    ensures r.publicKey == Some(Ap.UserKey(Db.KeyIdFor(u.id), UserUri(u.id), publicPem))
    ensures r.icon.None?
  {
    var base := UserUri(u.id);
    Ap.Person.Person(
      Ap.Object(Ap.AsContext(), base), Ap.ActivityType.Person,
      base + "/following", base + "/followers", "ferri " + u.username,
      base + "/inbox", base + "/outbox", u.displayName, u.username,
      Some(Ap.UserKey(base + "#main-key", base, publicPem)), None)
  }

  /** A profile URL is on the local host when the id keeps to the characters of a path. */
  lemma UserUriHost(id: string)
    requires forall c :: c in id ==> c !in {'?', '#'}
    ensures Url.Host(UserUri(id)) == Some(Ap.LOCAL_HOST)
  {
    var path := "/users/" + id;
    assert forall c :: c in path ==> c in "/users/" || c in id;
    assert "https://" + Ap.LOCAL_HOST + "/users/" == Db.USERS_BASE;
    assert UserUri(id) == "https://" + Ap.LOCAL_HOST + path;
    Url.HostOfHttps(Ap.LOCAL_HOST, path, UserUri(id));
    Ap.LocalHostLower();
    Url.LowerKeeps(Ap.LOCAL_HOST);
  }

  /**
   * A Person the server serves for one of its users is classified as local, known by the
   * user's display name.
   */
  lemma PersonOfIsLocal(u: Db.User, publicPem: string)
    requires forall c :: c in u.id ==> c !in {'?', '#'}
    ensures Ap.RemoteInfoOf(PersonOf(u, publicPem))
      == Some(Ap.RemoteInfo(false, Ap.LOCAL_BASE + u.displayName, u.displayName))
  {
    UserUriHost(u.id);
  }
}
