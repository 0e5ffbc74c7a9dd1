/**
 * The ActivityStreams shapes the federation code reads and writes
 * (`ferri-main/src/types/ap.rs`, with `Object` and the context from `types/mod.rs`),
 * and the local/remote classification of a fetched Person.
 */
module ApTypes {
  import opened Wrappers
  import Text
  import Url

  /** The server's own host and the base of its web URLs. */
  const LOCAL_HOST := "ferri.amy.mov"
  const LOCAL_BASE := "https://ferri.amy.mov/"
  const AS_CONTEXT := "https://www.w3.org/ns/activitystreams"
  const AS_PUBLIC := "https://www.w3.org/ns/activitystreams#Public"

  datatype ActivityType =
    Reject | Create | Note | Delete | Undo | Accept | Announce | Person | Like | Follow

  /** `ObjectContext`: a single context string, or a list of JSON values kept as text. */
  datatype ObjectContext = Str(s: string) | Vec(values: seq<string>)

  datatype Object = Object(context: ObjectContext, id: string)

  /** `as_context()`. */
  function AsContext(): ObjectContext {
    Str(AS_CONTEXT)
  }

  /** `DeleteActivity` and `LikeActivity`. */
  datatype BasicActivity = BasicActivity(obj: Object, objectId: string, actor: string)

  datatype PostAttachment = PostAttachment(
    mediaType: string, url: string, name: string, summary: Option<string>, sensitive: bool)

  datatype Post = Post(
    obj: Object, ty: ActivityType, ts: string, content: string,
    to: seq<string>, cc: seq<string>, attachment: seq<PostAttachment>,
    attributedTo: Option<string>)

  datatype CreateActivity = CreateActivity(
    obj: Object, ty: ActivityType, note: Post, actor: string,
    to: seq<string>, cc: seq<string>, ts: string)

  datatype FollowActivity = FollowActivity(obj: Object, ty: ActivityType, objectId: string, actor: string)

  datatype AcceptActivity = AcceptActivity(obj: Object, ty: ActivityType, objectId: string, actor: string)

  datatype BoostActivity = BoostActivity(
    obj: Object, ty: ActivityType, actor: string, published: string,
    to: seq<string>, cc: seq<string>, objectId: string)

  datatype Actor = Actor(obj: Object, inbox: string, outbox: string)

  datatype PersonIcon = PersonIcon(url: string, summary: string, width: int, height: int)

  datatype UserKey = UserKey(id: string, owner: string, publicKey: string)

  datatype Person = Person(
    obj: Object, ty: ActivityType, following: string, followers: string,
    summary: string, inbox: string, outbox: string,
    preferredUsername: string, name: string,
    publicKey: Option<UserKey>, icon: Option<PersonIcon>)

  datatype RemoteInfo = RemoteInfo(isRemote: bool, webUrl: string, acct: string)

  /**
   * `Person::remote_info`: a Person whose id is on another host is remote and known as
   * `preferred_username@host`; a local one by its preferred username alone. `None` is the
   * panic of an id that is not a URL with a host.
   */
  function RemoteInfoOf(p: Person): (r: Option<RemoteInfo>)
    ensures r.Some? <==> Url.Host(p.obj.id).Some?
    ensures r.Some? ==> (r.value.isRemote <==> Url.Host(p.obj.id).value != LOCAL_HOST)
    ensures r.Some? ==> p.preferredUsername <= r.value.acct && LOCAL_BASE <= r.value.webUrl
  {
    match Url.Host(p.obj.id)
    case None => None
    case Some(host) =>
      var (acct, remote) :=
        if host != LOCAL_HOST then (p.preferredUsername + "@" + host, true)
        else (p.preferredUsername, false);
      Some(RemoteInfo(remote, LOCAL_BASE + acct, acct))
  }

  /** A remote Person's `acct` splits back into its preferred username and its host. */
  lemma RemoteAcctSplits(p: Person)
    requires '@' !in p.preferredUsername
    requires RemoteInfoOf(p).Some? && RemoteInfoOf(p).value.isRemote
    ensures Text.SplitOnce(RemoteInfoOf(p).value.acct, '@')
      == Some((p.preferredUsername, Url.Host(p.obj.id).value))
  {
    var host := Url.Host(p.obj.id).value;
    assert RemoteInfoOf(p).value.acct == p.preferredUsername + ['@'] + host;
    Text.SplitOnceAt(p.preferredUsername, host, '@');
  }

  /** A local Person's `acct` is the bare preferred username: it holds no "@". */
  lemma LocalAcctBare(p: Person)
    requires RemoteInfoOf(p).Some? && !RemoteInfoOf(p).value.isRemote
    ensures RemoteInfoOf(p).value.acct == p.preferredUsername
    ensures '@' !in p.preferredUsername ==> Text.SplitOnce(RemoteInfoOf(p).value.acct, '@').None?
  {
  }

  /** The web URL is the local base followed by the `acct`, for local and remote alike. */
  lemma WebUrlNamesAcct(p: Person)
    requires RemoteInfoOf(p).Some?
    ensures Text.StripPrefix(RemoteInfoOf(p).value.webUrl, LOCAL_BASE) == Some(RemoteInfoOf(p).value.acct)
  {
    var r := RemoteInfoOf(p).value;
    var s := Text.StripPrefix(r.webUrl, LOCAL_BASE);
    assert s.Some? && r.webUrl == LOCAL_BASE + s.value;
    assert s.value == r.webUrl[|LOCAL_BASE|..];
  }

  /**
   * Only the host of the id and the preferred username matter: the scheme, port, path and
   * every other field (the display `name` among them) are ignored.
   */
  lemma RemoteInfoDependsOnHost(p: Person, q: Person)
    requires Url.Host(p.obj.id) == Url.Host(q.obj.id)
    requires p.preferredUsername == q.preferredUsername
    ensures RemoteInfoOf(p) == RemoteInfoOf(q)
  {
  }

  /**
   * The host is compared after `Url::parse` has put it in lower case: an `https` id whose
   * host spells the server's host in any mix of cases is local.
   */
  lemma LocalInAnyCase(p: Person, scheme: string, host: string, path: string)
    requires Url.ValidScheme(scheme) && Url.Lower(scheme) == "https"
    requires |host| > 0 && forall c :: c in host ==> c !in {':', '/', '?', '#', '@'}
    requires |path| > 0 && path[0] == '/' && forall c :: c in path ==> c !in {'?', '#'}
    requires p.obj.id == scheme + "://" + host + path
    requires Url.Lower(host) == LOCAL_HOST
    ensures RemoteInfoOf(p).Some? && !RemoteInfoOf(p).value.isRemote
    ensures RemoteInfoOf(p).value.acct == p.preferredUsername
  {
    Url.HostOfHttpsAnyCase(scheme, host, path, p.obj.id);
  }

  /** The server's host is written in lower case, as `Url::parse` reads every host. */
  lemma LocalHostLower()
    ensures forall c :: c in LOCAL_HOST ==> !Url.IsUpper(c)
  {
    assert LOCAL_HOST == "ferri.amy.mov";
  }
}
