/**
 * The outbound side of federation (`ferri-main/src/federation/outbox.rs`): the envelopes
 * `handle_outbox_request` builds for an Accept, a new status and a follow, the inbox each one
 * goes to and the key it is signed with, and the follow row the Follow arm writes before it
 * posts. Every post goes out through `post_activity`, which signs the request before it sets
 * the body (`Http.PostActivityAsWritten`): the `Digest` and the signature cover the empty body.
 */
module FedOutbox {
  import opened Wrappers
  import Time
  import Url
  import Http
  import Ap = ApTypes
  import Db = DbTypes
  import opened Store
  import Make
  import Oracle
  import Queue
  import ApPost
  import Convert
  import FedInbox

  /** The one inbox every status goes to, whoever follows its author. */
  const STATUS_HOST := "fedi.amy.mov"
  const STATUS_PATH := "/users/9zkygethkdw60001/inbox"
  const STATUS_INBOX := "https://" + STATUS_HOST + STATUS_PATH

  /** The status inbox, as a parsed URL. */
  const STATUS_URL := Url.Url("https", Some(STATUS_HOST), None, STATUS_PATH, None, None)

  /** `PreparedActivity`: the envelope on the wire; `obj` is the activity's `object`. */
  datatype PreparedActivity<T> = PreparedActivity(
    context: Ap.ObjectContext, id: string, ty: Ap.ActivityType, actor: string, obj: T,
    published: string)

  /**
   * What the outbox reads from outside: the signing primitives; the clock, as the instant the
   * signature dates and as the `now_str` text an envelope is published at; serde's
   * serialisation of the two envelope shapes; and whether a remote server answers a POST
   * with a body that reads as text (`false` is `post_activity`'s `Err(LoadFailure)`).
   */
  datatype Env = Env(
    crypto: Http.Primitives, now: Time.Instant, nowStr: string,
    encodeText: PreparedActivity<string> -> string,
    encodeNote: PreparedActivity<Ap.Post> -> string,
    answers: Http.Request -> bool)

  /** What a request does: the state it leaves, whether it ran to its end, the POSTs it sent. */
  datatype Effect = Effect(state: FedInbox.State, finished: bool, posts: seq<Http.Request>)

  // ------------------------------------------------------------- envelopes

  /** The Accept arm's envelope: every field but `published` comes from the activity. */
  function AcceptEnvelope(a: Ap.AcceptActivity, published: string): PreparedActivity<string> {
    PreparedActivity(a.obj.context, a.obj.id, a.ty, a.actor, a.objectId, published)
  }

  /** The followers collection of a local user. */
  function FollowersOf(userId: string): string {
    Convert.UserUri(userId) + "/followers"
  }

  /**
   * The Note a status is federated as: its id is the post's URI under its author, it is
   * addressed to the author's followers with the public collection in copy, it carries no
   * attachments and its time is the creation time in RFC 3339.
   */
  function StatusNote(post: Db.Post): Ap.Post {
    Ap.Post(Ap.Object(Ap.AsContext(), ApPost.UriOf(post.user.id, post.id)), Ap.ActivityType.Note,
            Time.ToRfc3339(post.createdAt), post.content, [FollowersOf(post.user.id)],
            [Ap.AS_PUBLIC], [], Some(post.user.actor.id))
  }

  /** The Status arm's envelope: a Create by the author's actor, under the fresh id `id`. */
  function StatusEnvelope(post: Db.Post, id: string, published: string): PreparedActivity<Ap.Post> {
    PreparedActivity(Ap.AsContext(), Db.ACTIVITIES_BASE + id, Ap.ActivityType.Create,
                     post.user.actor.id, StatusNote(post), published)
  }

  /** The follow row the Follow arm writes, under the fresh id `id`. */
  function FollowOf(follower: Db.User, followed: Db.User, id: string): Db.Follow {
    Db.Follow(Db.ACTIVITIES_BASE + id, follower.actor.id, followed.actor.id)
  }

  /** The Follow arm's envelope: the follower's actor follows the followed user's actor. */
  function FollowEnvelope(follower: Db.User, followed: Db.User, id: string, published: string)
    : PreparedActivity<string>
  {
    PreparedActivity(Ap.AsContext(), Db.ACTIVITIES_BASE + id, Ap.ActivityType.Follow,
                     follower.actor.id, followed.actor.id, published)
  }

  /** The Follow envelope as it is sent: encoded as JSON. */
  function FollowBody(env: Env, follower: Db.User, followed: Db.User, id: string): string {
    env.encodeText(FollowEnvelope(follower, followed, id, env.nowStr))
  }

  // ------------------------------------------------------------- delivery

  /**
   * Whether a delivery ran to its end: the POST went out and the remote answered it; every
   * arm `unwrap`s `post_activity`, so anything else is a panic.
   */
  predicate Delivered(env: Env, posts: seq<Http.Request>) {
    |posts| == 1 && env.answers(posts[0])
  }

  /** `post_activity`: signed while the body is still empty, then given the body. */
  method Send(client: Http.HttpClient, env: Env, keyId: string, inbox: string, body: string)
    returns (ok: bool)
    modifies client
    ensures ok ==> Http.IntoUrl(inbox).Some?
    ensures ok <==> Delivered(env, Http.DeliverAsWritten(env.crypto, keyId, inbox, body, env.now))
    ensures client.sent == old(client.sent) + Http.DeliverAsWritten(env.crypto, keyId, inbox, body, env.now)
  {
    var r;
    r, ok := Http.PostActivityAsWritten(client, env.crypto, env.answers, keyId, inbox, body, env.now);
  }

  // ------------------------------------------------------------- handler

  /**
   * The Follow arm: store the follow under the generator's next id (a duplicate panics), then
   * post the Follow envelope under the id after it.
   */
  function FollowEffect(env: Env, src: nat -> string, s: FedInbox.State, follower: Db.User, followed: Db.User)
    : (e: Effect)
  {
    var r := Make.NewFollowEffect(s.tables, FollowOf(follower, followed, src(s.next)));
    if r.1.Err? then Effect(FedInbox.State(r.0, s.next + 1), false, [])
    else FollowPostEffect(env, FedInbox.State(r.0, s.next + 1), follower, followed, src(s.next + 1))
  }

  /** The Follow arm once the row is stored: post the envelope under the next id. */
  function FollowPostEffect(env: Env, s: FedInbox.State, follower: Db.User, followed: Db.User, activityId: string)
    : (e: Effect)
  {
    var body := FollowBody(env, follower, followed, activityId);
    var posts := Http.DeliverAsWritten(env.crypto, follower.keyId, followed.actor.inbox, body, env.now);
    Effect(s.(next := s.next + 1), Delivered(env, posts), posts)
  }

  /** The Accept arm: post the Accept envelope to the person's inbox; nothing is stored. */
  function AcceptEffect(env: Env, s: FedInbox.State, a: Ap.AcceptActivity, keyId: string, person: Ap.Person)
    : (e: Effect)
  {
    var posts := Http.DeliverAsWritten(env.crypto, keyId, person.inbox,
                              env.encodeText(AcceptEnvelope(a, env.nowStr)), env.now);
    Effect(s, Delivered(env, posts), posts)
  }

  /** The Status arm, given the id it draws: post the status envelope to the status inbox. */
  function StatusEffect(env: Env, s: FedInbox.State, id: string, post: Db.Post, keyId: string): (e: Effect)
  {
    var body := env.encodeNote(StatusEnvelope(post, id, env.nowStr));
    var posts := Http.DeliverAsWritten(env.crypto, keyId, STATUS_INBOX, body, env.now);
    Effect(s.(next := s.next + 1), Delivered(env, posts), posts)
  }

  /** `handle_outbox_request`, on the store and the id generator the worker holds. */
  function OutboxEffect(env: Env, src: nat -> string, s: FedInbox.State, req: Queue.OutboxRequest)
    : (e: Effect)
  {
    match req
    case Accept(a, keyId, person) => AcceptEffect(env, s, a, keyId, person)
    case Status(post, keyId) => StatusEffect(env, s, src(s.next), post, keyId)
    case FollowUser(follower, followed) => FollowEffect(env, src, s, follower, followed)
  }

  /** One outbound request, run against the store, the id generator and the HTTP client. */
  method Handle(conn: Connection, ids: Oracle.Ids, client: Http.HttpClient, env: Env,
                req: Queue.OutboxRequest) returns (ok: bool)
    modifies conn, ids, client
    ensures var e := OutboxEffect(env, ids.source, FedInbox.State(old(conn.tables), old(ids.next)), req);
      && conn.tables == e.state.tables && ids.next == e.state.next && ok == e.finished
      && client.sent == old(client.sent) + e.posts
  {
    ghost var s := FedInbox.State(conn.tables, ids.next);
    match req {
      case Accept(a, keyId, person) =>
        assert OutboxEffect(env, ids.source, s, req) == AcceptEffect(env, s, a, keyId, person);
        ok := SendAccept(conn, ids, client, env, a, keyId, person);
      case Status(post, keyId) =>
        assert OutboxEffect(env, ids.source, s, req) == StatusEffect(env, s, ids.source(s.next), post, keyId);
        ok := SendStatus(conn, ids, client, env, post, keyId);
      case FollowUser(follower, followed) =>
        assert OutboxEffect(env, ids.source, s, req) == FollowEffect(env, ids.source, s, follower, followed);
        ok := SendFollow(conn, ids, client, env, follower, followed);
    }
  }

  /** The Accept arm: post the envelope; the store and the generator are left alone. */
  method SendAccept(conn: Connection, ids: Oracle.Ids, client: Http.HttpClient, env: Env,
                    a: Ap.AcceptActivity, keyId: string, person: Ap.Person) returns (ok: bool)
    modifies client
    ensures var e := AcceptEffect(env, FedInbox.State(conn.tables, ids.next), a, keyId, person);
      && conn.tables == e.state.tables && ids.next == e.state.next && ok == e.finished
      && client.sent == old(client.sent) + e.posts
  {
    ok := Send(client, env, keyId, person.inbox, env.encodeText(AcceptEnvelope(a, env.nowStr)));
  }

  /** The Status arm: draw the activity id, then post the envelope under it. */
  method SendStatus(conn: Connection, ids: Oracle.Ids, client: Http.HttpClient, env: Env,
                    post: Db.Post, keyId: string) returns (ok: bool)
    modifies ids, client
    ensures var e := StatusEffect(env, FedInbox.State(conn.tables, old(ids.next)), ids.source(old(ids.next)),
                                  post, keyId);
      && conn.tables == e.state.tables && ids.next == e.state.next && ok == e.finished
      && client.sent == old(client.sent) + e.posts
  {
    var id := ids.Fresh();
    ok := Send(client, env, keyId, STATUS_INBOX, env.encodeNote(StatusEnvelope(post, id, env.nowStr)));
  }

  /** The Follow arm: store the follow, then post its envelope. */
  method SendFollow(conn: Connection, ids: Oracle.Ids, client: Http.HttpClient, env: Env,
                    follower: Db.User, followed: Db.User) returns (ok: bool)
    modifies conn, ids, client
    ensures var e := FollowEffect(env, ids.source, FedInbox.State(old(conn.tables), old(ids.next)), follower, followed);
      && conn.tables == e.state.tables && ids.next == e.state.next && ok == e.finished
      && client.sent == old(client.sent) + e.posts
  {
    ghost var s := FedInbox.State(conn.tables, ids.next);
    var res := StoreFollow(conn, ids, follower, followed);
    if res.Err? {
      ok := false;
      assert FollowEffect(env, ids.source, s, follower, followed)
        == Effect(FedInbox.State(conn.tables, ids.next), false, []);
    } else {
      assert FollowEffect(env, ids.source, s, follower, followed)
        == FollowPostEffect(env, FedInbox.State(conn.tables, ids.next), follower, followed, ids.source(ids.next));
      ok := PostFollow(conn, ids, client, env, follower, followed);
    }
  }

  /** The first half of the Follow arm: draw the follow id and store the follow under it. */
  method StoreFollow(conn: Connection, ids: Oracle.Ids, follower: Db.User, followed: Db.User)
    returns (res: Result<Db.Follow, Db.DbError>)
    modifies conn, ids
    ensures (conn.tables, res) == Make.NewFollowEffect(old(conn.tables),
                                                       FollowOf(follower, followed, ids.source(old(ids.next))))
    ensures ids.next == old(ids.next) + 1
  {
    var followId := ids.Fresh();
    res := Make.NewFollow(conn, FollowOf(follower, followed, followId));
  }

  /** The second half of the Follow arm: draw the activity id and post the envelope under it. */
  method PostFollow(conn: Connection, ids: Oracle.Ids, client: Http.HttpClient, env: Env,
                    follower: Db.User, followed: Db.User) returns (ok: bool)
    modifies ids, client
    ensures var e := FollowPostEffect(env, FedInbox.State(conn.tables, old(ids.next)), follower, followed,
                                      ids.source(old(ids.next)));
      && conn.tables == e.state.tables && ids.next == e.state.next && ok == e.finished
      && client.sent == old(client.sent) + e.posts
  {
    var id := ids.Fresh();
    ok := Send(client, env, follower.keyId, followed.actor.inbox, FollowBody(env, follower, followed, id));
  }

  // ------------------------------------------------------------ properties

  /** The URL the status inbox parses to: it always does, so a status is always posted. */
  lemma StatusInboxParses()
    ensures Http.IntoUrl(STATUS_INBOX) == Some(STATUS_URL)
  {
    StatusUrlWellFormed();
    assert Url.Render(STATUS_URL) == STATUS_INBOX by {
      assert Url.Tail(STATUS_URL) == STATUS_PATH;
      assert "https" + "://" == "https://";
    }
    Url.ParseRender(STATUS_URL);
  }

  /** The status inbox URL is one the server could have written: `https`, a host, an absolute path. */
  lemma StatusUrlWellFormed()
    ensures Url.WellFormed(STATUS_URL)
  {
    StatusHostChars();
    StatusPathChars();
  }

  lemma StatusHostChars()
    ensures forall c :: c in STATUS_HOST ==> c !in {':', '/', '?', '#', '@'} && !Url.IsUpper(c)
  {
    assert STATUS_HOST == "fedi.amy.mov";
  }

  lemma StatusPathChars()
    ensures forall c :: c in STATUS_PATH ==> c !in {'?', '#'}
  {
    assert STATUS_PATH == "/users/9zkygethkdw60001/inbox";
  }

  /**
   * The Accept of a follow, as the inbox builds it, goes out naming the follow as its object and
   * the followed user's actor as its actor, under the id the inbox gave it.
   */
  lemma AcceptAnswersFollow(f: Ap.FollowActivity, followed: Db.User, id: string, published: string)
    ensures var e := AcceptEnvelope(FedInbox.AcceptFor(f, followed, id), published);
      && e.context == Ap.AsContext() && e.id == Db.ACTIVITIES_BASE + id
      && e.ty == Ap.ActivityType.Accept && e.obj == f.obj.id && e.actor == followed.actor.id
      && e.published == published
  {
  }

  /**
   * The Accept arm writes nothing and draws no id; it posts exactly when the person's inbox
   * is a URL with a host, and then posts the envelope there, signed with the key it was given,
   * but with the digest and signature of the empty body; it finishes exactly when that post is
   * answered.
   */
  lemma AcceptPosts(env: Env, src: nat -> string, s: FedInbox.State, a: Ap.AcceptActivity, keyId: string,
                    person: Ap.Person)
    ensures var e := OutboxEffect(env, src, s, Queue.Accept(a, keyId, person));
      && e.state == s && (|e.posts| == 1 <==> Http.IntoUrl(person.inbox).Some?)
      && (e.finished <==> |e.posts| == 1 && env.answers(e.posts[0]))
      && (Http.IntoUrl(person.inbox).Some? ==>
            var u := Http.IntoUrl(person.inbox).value;
            var body := env.encodeText(AcceptEnvelope(a, env.nowStr));
            && |e.posts| == 1 && e.posts[0].url == u && e.posts[0].payload == Some(body)
            && Http.Lookup(e.posts[0].headers, "Digest") == Some(Http.DigestValue(env.crypto, ""))
            && Http.Lookup(e.posts[0].headers, "Signature")
                 == Some(Http.SignPost(env.crypto, u.host.value, u.path, "", keyId, env.now).signature)
            && (Http.DigestMatches(env.crypto, e.posts[0]) <==> Http.DigestValue(env.crypto, "") == Http.DigestValue(env.crypto, body)))
      && (Http.IntoUrl(person.inbox).None? ==> e.posts == [] && !e.finished)
  {
    if Http.IntoUrl(person.inbox).Some? {
      Http.DeliverAsWrittenSigned(env.crypto, keyId, person.inbox, env.encodeText(AcceptEnvelope(a, env.nowStr)), env.now);
    }
  }

  /**
   * A status is a Create by its author's actor of the Note whose id is the post's URI under its
   * author, attributed to that actor; the id names the author and the post again, and its time
   * reads back as the post's creation time.
   */
  lemma StatusNoteFacts(post: Db.Post, id: string, published: string)
    requires '/' !in post.user.id
    requires Time.FourDigitYear(post.createdAt)
    ensures var e := StatusEnvelope(post, id, published);
      && e.ty == Ap.ActivityType.Create && e.id == Db.ACTIVITIES_BASE + id
      && e.actor == post.user.actor.id && e.obj.attributedTo == Some(e.actor)
      && e.obj.ty == Ap.ActivityType.Note && e.obj.obj.id == ApPost.UriOf(post.user.id, post.id)
      && e.obj.content == post.content && e.obj.attachment == []
      && Time.ParseRfc3339(e.obj.ts) == Some(post.createdAt)
    ensures forall u, p | ApPost.UriOf(u, p) == StatusNote(post).obj.id && '/' !in u ::
      u == post.user.id && p == post.id
  {
    Time.ParseRfc3339Of(post.createdAt);
    forall u, p | ApPost.UriOf(u, p) == StatusNote(post).obj.id && '/' !in u
      ensures u == post.user.id && p == post.id
    {
      ApPost.UriOfInjective(u, p, post.user.id, post.id);
    }
  }

  /**
   * A status goes to the followers the author's Person advertises (whatever `publicPem` that
   * Person carries), with the public collection in copy.
   */
  lemma StatusToFollowers(post: Db.Post, publicPem: string)
    ensures StatusNote(post).to == [Convert.PersonOf(post.user, publicPem).followers]
    ensures StatusNote(post).cc == [Ap.AS_PUBLIC]
  {
  }

  /**
   * The Status arm writes nothing, draws one id and posts exactly once, to the fixed status
   * inbox, whatever the store holds; its digest and signature are those of the empty body, and
   * it finishes exactly when that post is answered.
   */
  lemma StatusPosts(env: Env, src: nat -> string, s: FedInbox.State, post: Db.Post, keyId: string)
    ensures var e := OutboxEffect(env, src, s, Queue.Status(post, keyId));
      var body := env.encodeNote(StatusEnvelope(post, src(s.next), env.nowStr));
      var u := STATUS_URL;
      && e.state.tables == s.tables && e.state.next == s.next + 1
      && |e.posts| == 1 && e.posts[0].url == u
      && (e.finished <==> env.answers(e.posts[0]))
      && e.posts[0].payload == Some(body)
      && Http.Lookup(e.posts[0].headers, "Digest") == Some(Http.DigestValue(env.crypto, ""))
      && Http.Lookup(e.posts[0].headers, "Signature")
           == Some(Http.SignPost(env.crypto, u.host.value, u.path, "", keyId, env.now).signature)
      && (Http.DigestMatches(env.crypto, e.posts[0]) <==> Http.DigestValue(env.crypto, "") == Http.DigestValue(env.crypto, body))
  {
    var body := env.encodeNote(StatusEnvelope(post, src(s.next), env.nowStr));
    var e := OutboxEffect(env, src, s, Queue.Status(post, keyId));
    assert e.posts == Http.DeliverAsWritten(env.crypto, keyId, STATUS_INBOX, body, env.now);
    assert e.state.tables == s.tables && e.state.next == s.next + 1;
    StatusInboxParses();
    Http.DeliverAsWrittenSigned(env.crypto, keyId, STATUS_INBOX, body, env.now);
  }

  /** What a status posts does not depend on the store: no follower list is read. */
  lemma StatusIgnoresStore(env: Env, src: nat -> string, s: FedInbox.State, t: Tables, post: Db.Post,
                           keyId: string)
    ensures OutboxEffect(env, src, s.(tables := t), Queue.Status(post, keyId)).posts
      == OutboxEffect(env, src, s, Queue.Status(post, keyId)).posts
  {
  }

  /**
   * The Follow arm persists before it posts: with the follow id already stored it panics before
   * any post, and otherwise it appends the follow row (holding the follower twice, as
   * `new_follow` writes it) and only then posts, when the followed inbox is a URL with a host;
   * it finishes exactly when that post is answered.
   */
  lemma FollowPersists(env: Env, src: nat -> string, s: FedInbox.State, follower: Db.User, followed: Db.User)
    ensures var e := FollowEffect(env, src, s, follower, followed);
      var id := Db.ACTIVITIES_BASE + src(s.next);
      && (Taken(s.tables.follow, FollowId, id) ==>
            !e.finished && e.posts == [] && e.state.tables == s.tables && e.state.next == s.next + 1)
      && (!Taken(s.tables.follow, FollowId, id) ==>
            && e.state.tables == s.tables.(follow := s.tables.follow + [FollowRow(id, follower.actor.id, follower.actor.id)])
            && e.state.next == s.next + 2
            && (|e.posts| == 1 <==> Http.IntoUrl(followed.actor.inbox).Some?)
            && (e.finished <==> |e.posts| == 1 && env.answers(e.posts[0])))
      && (e.posts != [] ==> Taken(e.state.tables.follow, FollowId, id))
  {
    var id := Db.ACTIVITIES_BASE + src(s.next);
    var r := Make.NewFollowEffect(s.tables, FollowOf(follower, followed, src(s.next)));
    if !Taken(s.tables.follow, FollowId, id) {
      assert r.0.follow[|s.tables.follow|].id == id;
    }
  }

  /**
   * What the Follow arm posts once its row is stored: the Follow envelope under the second id,
   * to the followed actor's inbox, signed with the follower's key over the empty body.
   */
  lemma FollowPosts(env: Env, src: nat -> string, s: FedInbox.State, follower: Db.User, followed: Db.User)
    requires !Taken(s.tables.follow, FollowId, Db.ACTIVITIES_BASE + src(s.next))
    requires Http.IntoUrl(followed.actor.inbox).Some?
    ensures var e := FollowEffect(env, src, s, follower, followed);
      var u := Http.IntoUrl(followed.actor.inbox).value;
      var body := FollowBody(env, follower, followed, src(s.next + 1));
      && |e.posts| == 1 && e.posts[0].url == u && e.posts[0].payload == Some(body)
      && Http.Lookup(e.posts[0].headers, "Digest") == Some(Http.DigestValue(env.crypto, ""))
      && Http.Lookup(e.posts[0].headers, "Signature")
           == Some(Http.SignPost(env.crypto, u.host.value, u.path, "", follower.keyId, env.now).signature)
      && (Http.DigestMatches(env.crypto, e.posts[0]) <==> Http.DigestValue(env.crypto, "") == Http.DigestValue(env.crypto, body))
  {
    var body := FollowBody(env, follower, followed, src(s.next + 1));
    FollowStoredPosts(env, src, s, follower, followed);
    Http.DeliverAsWrittenSigned(env.crypto, follower.keyId, followed.actor.inbox, body, env.now);
  }

  /** Once the row is stored, the Follow arm's posts are the delivery of the Follow envelope. */
  lemma FollowStoredPosts(env: Env, src: nat -> string, s: FedInbox.State, follower: Db.User, followed: Db.User)
    requires !Taken(s.tables.follow, FollowId, Db.ACTIVITIES_BASE + src(s.next))
    ensures FollowEffect(env, src, s, follower, followed).posts
      == Http.DeliverAsWritten(env.crypto, follower.keyId, followed.actor.inbox, FollowBody(env, follower, followed, src(s.next + 1)), env.now)
  {
    var r := Make.NewFollowEffect(s.tables, FollowOf(follower, followed, src(s.next)));
    assert r.1.Ok?;
    assert FollowEffect(env, src, s, follower, followed)
      == FollowPostEffect(env, FedInbox.State(r.0, s.next + 1), follower, followed, src(s.next + 1));
  }

  /**
   * The Follow envelope: the follower's actor follows the followed actor, under a fresh id that
   * differs from the follow row's whenever the generator's two draws differ.
   */
  lemma FollowEnvelopeFacts(follower: Db.User, followed: Db.User, src: nat -> string, n: nat, published: string)
    requires src(n) != src(n + 1)
    ensures var e := FollowEnvelope(follower, followed, src(n + 1), published);
      && e.ty == Ap.ActivityType.Follow && e.actor == follower.actor.id && e.obj == followed.actor.id
      && e.actor == FollowOf(follower, followed, src(n)).follower
      && e.obj == FollowOf(follower, followed, src(n)).followed
      && e.id != FollowOf(follower, followed, src(n)).id
  {
    assert (Db.ACTIVITIES_BASE + src(n + 1))[|Db.ACTIVITIES_BASE|..] == src(n + 1);
    assert (Db.ACTIVITIES_BASE + src(n))[|Db.ACTIVITIES_BASE|..] == src(n);
  }

  /** No outbound request breaks the store's key invariant. */
  lemma OutboxKeepsValid(env: Env, src: nat -> string, s: FedInbox.State, req: Queue.OutboxRequest)
    requires Valid(s.tables)
    ensures Valid(OutboxEffect(env, src, s, req).state.tables)
  {
    if req.FollowUser? {
      Make.NewFollowKeepsValid(s.tables, FollowOf(req.follower, req.followedUser, src(s.next)));
      assert OutboxEffect(env, src, s, req).state.tables
        == Make.NewFollowEffect(s.tables, FollowOf(req.follower, req.followedUser, src(s.next))).0;
    }
  }
}
