/**
 * The federation inbox worker's handlers (`handle_inbox_request` of
 * `ferri-main/src/federation/inbox.rs`): a Follow records the follower and queues an Accept
 * on the outbound queue; a Create stores the remote note with its author; a Boost stores
 * the boosted note, its author, the booster and the boost itself; Delete and Like are
 * logged and ignored.
 *
 * Each handler is specified by an effect function on the store and the position of the id
 * generator, and the methods that run the handler are proved to have exactly that effect.
 * An `unwrap` that fails ends the handler where it stands: nothing is rolled back.
 */
module FedInbox {
  import opened Wrappers
  import Time
  import Http
  import Ap = ApTypes
  import Db = DbTypes
  import opened Store
  import Make
  import Get
  import Oracle
  import Fetch
  import Queue
  import ApPost

  /** The icon of a user whose Person has none; the scheme's ':' is missing as written. */
  const DEFAULT_ICON := "https//ferri.amy.mov/assets/pfp.png"

  /** What a handler reads from outside: the signing primitives, the remote servers, the clock. */
  datatype Env = Env(crypto: Http.Primitives, remote: Fetch.Remote, now: Time.Instant)

  /** How a handler ends: it ran to the end, it panicked, or its send waits for room. */
  datatype Outcome = Done | Panic | Blocked

  /** The store and the position of the id generator. */
  datatype State = State(tables: Tables, next: nat)

  /**
   * What a handler does: the state it leaves, whether it got to its end without a panic,
   * the URLs it fetched (in order) and the message it hands to the outbound queue.
   */
  datatype Effect = Effect(state: State, finished: bool, gets: seq<string>, message: Option<Queue.QueueMessage>)

  /** `key_id`: the key a local user signs with. */
  function KeyId(u: Db.User): string {
    Db.KeyIdFor(u.id)
  }

  /** Every user read from the store signs with the key id it carries. */
  lemma KeyIdOfStored(t: Tables, id: string)
    requires Get.UserById(t, id).Got?
    ensures KeyId(Get.UserById(t, id).value) == Get.UserById(t, id).value.keyId
  {
    var u := Get.UserById(t, id).value;
    assert u.keyId == Db.KeyIdFor(u.id);
  }

  /** The GETs for a list of URLs, one after another, each signed with `keyId`. */
  function Fetches(p: Http.Primitives, keyId: string, urls: seq<string>, now: Time.Instant)
    : (r: seq<Http.Request>)
    ensures |r| <= |urls|
  {
    if |urls| == 0 then [] else Fetch.GetOf(p, keyId, urls[0], now) + Fetches(p, keyId, urls[1..], now)
  }

  lemma FetchesOne(p: Http.Primitives, keyId: string, a: string, now: Time.Instant)
    ensures Fetches(p, keyId, [a], now) == Fetch.GetOf(p, keyId, a, now)
  {
    assert [a][1..] == [];
  }

  lemma FetchesCons(p: Http.Primitives, keyId: string, a: string, rest: seq<string>, now: Time.Instant)
    ensures Fetches(p, keyId, [a] + rest, now) == Fetch.GetOf(p, keyId, a, now) + Fetches(p, keyId, rest, now)
  {
    assert ([a] + rest)[1..] == rest;
  }

  lemma FetchesTwo(sent: seq<Http.Request>, p: Http.Primitives, keyId: string, a: string, b: string,
                   now: Time.Instant)
    ensures sent + Fetch.GetOf(p, keyId, a, now) + Fetch.GetOf(p, keyId, b, now)
      == sent + Fetches(p, keyId, [a, b], now)
  {
    var ga, gb := Fetch.GetOf(p, keyId, a, now), Fetch.GetOf(p, keyId, b, now);
    assert [a, b] == [a] + [b];
    FetchesCons(p, keyId, a, [b], now);
    FetchesOne(p, keyId, b, now);
    Append2(sent, ga, gb);
  }

  lemma FetchesThree(sent: seq<Http.Request>, p: Http.Primitives, keyId: string, a: string, b: string, c: string,
                     now: Time.Instant)
    ensures sent + Fetch.GetOf(p, keyId, a, now) + Fetch.GetOf(p, keyId, b, now) + Fetch.GetOf(p, keyId, c, now)
      == sent + Fetches(p, keyId, [a, b, c], now)
  {
    var ga, gb, gc := Fetch.GetOf(p, keyId, a, now), Fetch.GetOf(p, keyId, b, now), Fetch.GetOf(p, keyId, c, now);
    assert [a, b, c] == [a] + ([b] + [c]);
    assert [b, c] == [b] + [c];
    FetchesCons(p, keyId, a, [b, c], now);
    FetchesCons(p, keyId, b, [c], now);
    FetchesOne(p, keyId, c, now);
    Append3(sent, ga, gb, gc);
  }

  lemma Append2<T>(s: seq<T>, a: seq<T>, b: seq<T>)
    ensures s + a + b == s + (a + b)
  {
  }

  lemma Append3<T>(s: seq<T>, a: seq<T>, b: seq<T>, c: seq<T>)
    ensures s + a + b + c == s + (a + (b + c))
  {
  }

  // ------------------------------------------------------------- authors

  function ActorOf(p: Ap.Person): Db.Actor {
    Db.Actor(p.obj.id, p.inbox, p.outbox)
  }

  /** The user a handler builds for a Person it has not stored yet. */
  function NewUserFor(p: Ap.Person, info: Ap.RemoteInfo, id: string, now: Time.Instant): Db.User {
    Db.User(id, ActorOf(p), p.preferredUsername, p.name, info.acct, info.isRemote, info.webUrl,
            now, if p.icon.Some? then p.icon.value.url else DEFAULT_ICON, None, Db.KeyIdFor(id))
  }

  /** A user found by actor URI belongs to that actor. */
  lemma ByActorUriMatches(t: Tables, uri: string)
    requires Get.UserByActorUri(t, uri).Got?
    ensures Get.UserByActorUri(t, uri).value.actor.id == uri
  {
    var pick := (u: UserRow) => u.actorId == uri;
    var (u, a) := Get.UserRecord(t.user, t.actor, pick).value;
    assert pick(u);
  }

  /**
   * The author step, written out three times in the source: store the Person's actor, look
   * its user up by actor URI, build a new one with a fresh id when the lookup fails, and
   * store that user. `None` is a panic.
   */
  function AuthorEffect(s: State, src: nat -> string, p: Ap.Person, info: Ap.RemoteInfo, now: Time.Instant)
    : (r: (State, Option<Db.User>))
  {
    var t1 := Make.NewActorEffect(s.tables, ActorOf(p)).0;
    match Get.UserByActorUri(t1, p.obj.id)
    case Panic => (State(t1, s.next), None)
    case Got(u) =>
      var (t2, res) := Make.NewUserEffect(t1, u);
      (State(t2, s.next), if res.Ok? then Some(u) else None)
    case Failed(_) =>
      var u := NewUserFor(p, info, src(s.next), now);
      var (t2, res) := Make.NewUserEffect(t1, u);
      (State(t2, s.next + 1), if res.Ok? then Some(u) else None)
  }

  /**
   * The author step touches only the actor and user tables, adding rows; it leaves the
   * Person's actor stored, and a user it hands out belongs to that actor and is stored
   * under its actor id.
   */
  lemma AuthorFrame(s: State, src: nat -> string, p: Ap.Person, info: Ap.RemoteInfo, now: Time.Instant)
    ensures var r := AuthorEffect(s, src, p, info, now);
      && r.0.tables.(actor := s.tables.actor, user := s.tables.user) == s.tables
      && s.tables.actor <= r.0.tables.actor && s.tables.user <= r.0.tables.user
      && s.next <= r.0.next <= s.next + 1
      && Taken(r.0.tables.actor, ActorId, p.obj.id)
      && (r.1.Some? ==> r.1.value.actor.id == p.obj.id && Taken(r.0.tables.user, UserActorId, p.obj.id))
  {
    var t1 := Make.NewActorEffect(s.tables, ActorOf(p)).0;
    if Get.UserByActorUri(t1, p.obj.id).Got? {
      ByActorUriMatches(t1, p.obj.id);
    }
  }

  /** The author step leaves the post table alone and draws at most one id. */
  lemma AuthorKeepsPosts(s: State, src: nat -> string, p: Ap.Person, info: Ap.RemoteInfo, now: Time.Instant)
    ensures var r := AuthorEffect(s, src, p, info, now);
      r.0.tables.post == s.tables.post && s.next <= r.0.next <= s.next + 1
  {
    AuthorFrame(s, src, p, info, now);
  }

  method StoreAuthor(conn: Connection, ids: Oracle.Ids, p: Ap.Person, info: Ap.RemoteInfo, now: Time.Instant)
    returns (u: Option<Db.User>)
    modifies conn, ids
    ensures var r := AuthorEffect(State(old(conn.tables), old(ids.next)), ids.source, p, info, now);
      conn.tables == r.0.tables && ids.next == r.0.next && u == r.1
  {
    var _ := Make.NewActor(conn, ActorOf(p));
    var found := Get.UserByActorUri(conn.tables, p.obj.id);
    var user: Db.User;
    match found {
      case Panic => return None;
      case Got(v) => user := v;
      case Failed(_) =>
        var id := ids.Fresh();
        user := NewUserFor(p, info, id, now);
    }
    var r := Make.NewUser(conn, user);
    if r.Err? {
      return None;
    }
    return Some(user);
  }

  // --------------------------------------------------------- attachments

  function AttachmentOf(at: Ap.PostAttachment, id: string, postId: string): Db.Attachment {
    Db.Attachment(id, postId, at.url, Some(at.mediaType), at.sensitive, at.summary)
  }

  /** The attachments of a fetched note, given ids `src(start)`, `src(start + 1)`, … in turn. */
  function AttachmentsFor(ats: seq<Ap.PostAttachment>, src: nat -> string, start: nat, postId: string)
    : (r: seq<Db.Attachment>)
    ensures |r| == |ats|
  {
    seq(|ats|, i requires 0 <= i < |ats| => AttachmentOf(ats[i], src(start + i), postId))
  }

  /** The attachment `map`: one fresh id per attachment, in order. */
  method MapAttachments(ids: Oracle.Ids, ats: seq<Ap.PostAttachment>, postId: string)
    returns (r: seq<Db.Attachment>)
    modifies ids
    ensures r == AttachmentsFor(ats, ids.source, old(ids.next), postId)
    ensures ids.next == old(ids.next) + |ats|
  {
    r := [];
    var i := 0;
    while i < |ats|
      invariant 0 <= i <= |ats|
      invariant ids.next == old(ids.next) + i
      invariant r == AttachmentsFor(ats[..i], ids.source, old(ids.next), postId)
    {
      var id := ids.Fresh();
      r := r + [AttachmentOf(ats[i], id, postId)];
      assert ats[..i + 1][..i] == ats[..i];
      i := i + 1;
    }
    assert ats[..i] == ats;
  }

  // -------------------------------------------------------------- Follow

  /** The Accept answering a follow, with the given id. */
  function AcceptFor(a: Ap.FollowActivity, followed: Db.User, id: string): Ap.AcceptActivity {
    Ap.AcceptActivity(Ap.Object(Ap.AsContext(), Db.ACTIVITIES_BASE + id), Ap.ActivityType.Accept,
                      a.obj.id, followed.actor.id)
  }

  /**
   * The writes of Follow, once the follower's Person is fetched: store its actor, store the
   * follow under a fresh activity id, and build the Accept (with a second fresh id) that goes
   * to the outbound queue. `None` is a panic.
   */
  function FollowWrites(src: nat -> string, s: State, a: Ap.FollowActivity, follower: Ap.Person,
                        followed: Db.User): (r: (State, Option<Queue.QueueMessage>))
  {
    var t1 := Make.NewActorEffect(s.tables, ActorOf(follower)).0;
    var follow := Db.Follow(Db.ACTIVITIES_BASE + src(s.next), follower.obj.id, followed.actor.id);
    var (t2, res) := Make.NewFollowEffect(t1, follow);
    if res.Err? then (State(t1, s.next + 1), None)
    else
      var accept := AcceptFor(a, followed, src(s.next + 1));
      (State(t2, s.next + 2), Some(Queue.Outbound(Queue.Accept(accept, KeyId(followed), follower))))
  }

  /** Follow: fetch the follower, signed with the followed user's key. */
  function FollowEffect(env: Env, src: nat -> string, s: State, a: Ap.FollowActivity, followed: Db.User)
    : (e: Effect)
  {
    match Fetch.PersonAt(env.remote, a.actor)
    case None => Effect(s, false, [a.actor], None)
    case Some(follower) =>
      var (s1, msg) := FollowWrites(src, s, a, follower, followed);
      Effect(s1, msg.Some?, [a.actor], msg)
  }

  method StoreFollow(conn: Connection, ids: Oracle.Ids, a: Ap.FollowActivity, follower: Ap.Person,
                     followed: Db.User) returns (msg: Option<Queue.QueueMessage>)
    modifies conn, ids
    ensures var r := FollowWrites(ids.source, State(old(conn.tables), old(ids.next)), a, follower, followed);
      conn.tables == r.0.tables && ids.next == r.0.next && msg == r.1
  {
    var _ := Make.NewActor(conn, ActorOf(follower));
    var followId := ids.Fresh();
    var r := Make.NewFollow(conn, Db.Follow(Db.ACTIVITIES_BASE + followId, follower.obj.id, followed.actor.id));
    if r.Err? {
      return None;
    }
    var acceptId := ids.Fresh();
    return Some(Queue.Outbound(Queue.Accept(AcceptFor(a, followed, acceptId), KeyId(followed), follower)));
  }

  method HandleFollow(conn: Connection, ids: Oracle.Ids, client: Http.HttpClient, env: Env,
                      a: Ap.FollowActivity, followed: Db.User)
    returns (ok: bool, msg: Option<Queue.QueueMessage>)
    modifies conn, ids, client
    ensures var e := FollowEffect(env, ids.source, State(old(conn.tables), old(ids.next)), a, followed);
      && State(conn.tables, ids.next) == e.state && ok == e.finished && msg == e.message
    ensures client.sent == old(client.sent) + Fetch.GetOf(env.crypto, KeyId(followed), a.actor, env.now)
  {
    var follower := Fetch.GetPerson(client, env.crypto, env.remote, KeyId(followed), a.actor, env.now);
    if follower.None? {
      return false, None;
    }
    msg := StoreFollow(conn, ids, a, follower.value, followed);
    ok := msg.Some?;
  }

  // -------------------------------------------------------------- Create

  /**
   * Storing a fetched note as the post `postId` of `author`: its attachments get the next
   * ids in turn, then `new_post` runs.
   */
  function NoteWrites(src: nat -> string, s: State, postId: string, note: Ap.Post, author: Db.User,
                      created: Time.Instant, boosted: Option<Db.Post>): (r: (State, Db.Post, bool))
  {
    var atts := AttachmentsFor(note.attachment, src, s.next, postId);
    var post := Db.Post(postId, note.obj.id, author, note.content, created, boosted, atts);
    var (t, res) := Make.NewPostEffect(s.tables, post);
    (State(t, s.next + |atts|), post, res.Ok?)
  }

  method StoreNote(conn: Connection, ids: Oracle.Ids, postId: string, note: Ap.Post, author: Db.User,
                   created: Time.Instant, boosted: Option<Db.Post>) returns (post: Db.Post, ok: bool)
    modifies conn, ids
    ensures var r := NoteWrites(ids.source, State(old(conn.tables), old(ids.next)), postId, note, author, created, boosted);
      conn.tables == r.0.tables && ids.next == r.0.next && post == r.1 && ok == r.2
  {
    var atts := MapAttachments(ids, note.attachment, postId);
    post := Db.Post(postId, note.obj.id, author, note.content, created, boosted, atts);
    var r := Make.NewPost(conn, post);
    ok := r.Ok?;
  }

  /**
   * `DateTime::parse_from_rfc3339(ts)` moved to UTC, before its `unwrap`: `None` is the
   * panic. The handlers read a timestamp only after drawing the id of the post it dates.
   */
  function Stamp(ts: string): (r: Option<Time.Instant>)
    ensures r.Some? <==> Time.ParseRfc3339(ts).Some?
  {
    match Time.ParseRfc3339(ts)
    case None => None
    case Some(t) => Some(t)
  }

  /**
   * The writes of Create, once the author's Person and remote info are known: draw the post
   * id, read the timestamp (`created` is what `Stamp` made of it), store the author, then
   * the note.
   */
  function CreateWrites(src: nat -> string, s: State, a: Ap.CreateActivity, person: Ap.Person,
                        info: Ap.RemoteInfo, created: Option<Time.Instant>, now: Time.Instant)
    : (r: (State, bool))
  {
    var postId := src(s.next);
    if created.None? then (s.(next := s.next + 1), false)
    else
      var (s2, author) := AuthorEffect(s.(next := s.next + 1), src, person, info, now);
      if author.None? then (s2, false)
      else
        var (s3, _, ok) := NoteWrites(src, s2, postId, a.note, author.value, created.value, None);
        (s3, ok)
  }

  /** Create: fetch the author (signed with the addressed user's key) and take its remote info. */
  function CreateEffect(env: Env, src: nat -> string, s: State, a: Ap.CreateActivity, user: Db.User)
    : (e: Effect)
  {
    match Fetch.PersonAt(env.remote, a.actor)
    case None => Effect(s, false, [a.actor], None)
    case Some(person) =>
      match Ap.RemoteInfoOf(person)
      case None => Effect(s, false, [a.actor], None)
      case Some(info) =>
        var (s1, ok) := CreateWrites(src, s, a, person, info, Stamp(a.ts), env.now);
        Effect(s1, ok, [a.actor], None)
  }

  method StoreCreate(conn: Connection, ids: Oracle.Ids, a: Ap.CreateActivity, person: Ap.Person,
                     info: Ap.RemoteInfo, created: Option<Time.Instant>, now: Time.Instant)
    returns (ok: bool)
    modifies conn, ids
    ensures var r := CreateWrites(ids.source, State(old(conn.tables), old(ids.next)), a, person, info, created, now);
      conn.tables == r.0.tables && ids.next == r.0.next && ok == r.1
  {
    var postId := ids.Fresh();
    if created.None? {
      return false;
    }
    var author := StoreAuthor(conn, ids, person, info, now);
    if author.None? {
      return false;
    }
    var _, stored := StoreNote(conn, ids, postId, a.note, author.value, created.value, None);
    return stored;
  }

  method HandleCreate(conn: Connection, ids: Oracle.Ids, client: Http.HttpClient, env: Env,
                      a: Ap.CreateActivity, user: Db.User)
    returns (ok: bool)
    modifies conn, ids, client
    ensures var e := CreateEffect(env, ids.source, State(old(conn.tables), old(ids.next)), a, user);
      conn.tables == e.state.tables && ids.next == e.state.next && ok == e.finished && e.message.None?
    ensures client.sent == old(client.sent) + Fetch.GetOf(env.crypto, KeyId(user), a.actor, env.now)
  {
    var person := Fetch.GetPerson(client, env.crypto, env.remote, KeyId(user), a.actor, env.now);
    if person.None? {
      return false;
    }
    var info := Ap.RemoteInfoOf(person.value);
    if info.None? {
      return false;
    }
    ok := StoreCreate(conn, ids, a, person.value, info.value, Stamp(a.ts), env.now);
  }

  // --------------------------------------------------------------- Boost

  /** `new_post` on the store, the id generator left where it is. */
  function PostWrites(s: State, p: Db.Post): (r: (State, bool)) {
    var (t, res) := Make.NewPostEffect(s.tables, p);
    (State(t, s.next), res.Ok?)
  }

  method SavePost(conn: Connection, ids: Oracle.Ids, p: Db.Post) returns (ok: bool)
    modifies conn
    ensures var r := PostWrites(State(old(conn.tables), ids.next), p);
      conn.tables == r.0.tables && ids.next == r.0.next && ok == r.1
  {
    var r := Make.NewPost(conn, p);
    ok := r.Ok?;
  }

  /**
   * The boost itself: a post of the booster with a fresh id, an empty content, the time the
   * Announce was published, no attachments and the boosted post as `boosted_post`. Its URI
   * puts the booster's whole actor URL where a user id goes.
   */
  function BaseOf(id: string, person: Ap.Person, u: Db.User, created: Time.Instant, boosted: Db.Post): Db.Post {
    Db.Post(id, ApPost.UriOf(person.obj.id, id), u, "", created, Some(boosted), [])
  }

  /** Storing the booster, then the boost; `published` is what `Stamp` made of the Announce's time. */
  function BaseWrites(src: nat -> string, s: State, person: Ap.Person, info: Ap.RemoteInfo,
                      boosted: Db.Post, published: Option<Time.Instant>, now: Time.Instant)
    : (r: (State, bool))
  {
    var a := AuthorEffect(s, src, person, info, now);
    BaseAfter(src, a.0, a.1, person, boosted, published)
  }

  /** The boost's own write, once the booster's step left `s1` and handed out `u`. */
  function BaseAfter(src: nat -> string, s1: State, u: Option<Db.User>, person: Ap.Person, boosted: Db.Post,
                     published: Option<Time.Instant>): (r: (State, bool))
  {
    if u.None? then (s1, false)
    else
      var id := src(s1.next);
      if published.None? then (s1.(next := s1.next + 1), false)
      else PostWrites(s1.(next := s1.next + 1), BaseOf(id, person, u.value, published.value, boosted))
  }

  method StoreBase(conn: Connection, ids: Oracle.Ids, person: Ap.Person, info: Ap.RemoteInfo,
                   boosted: Db.Post, published: Option<Time.Instant>, now: Time.Instant) returns (ok: bool)
    modifies conn, ids
    ensures var r := BaseWrites(ids.source, State(old(conn.tables), old(ids.next)), person, info, boosted, published, now);
      conn.tables == r.0.tables && ids.next == r.0.next && ok == r.1
  {
    var u := StoreAuthor(conn, ids, person, info, now);
    if u.None? {
      return false;
    }
    var id := ids.Fresh();
    if published.None? {
      return false;
    }
    ok := SavePost(conn, ids, BaseOf(id, person, u.value, published.value, boosted));
  }

  /**
   * The first half of Boost: store the boosted note's author, draw the note's id, read its
   * time (`created`), and store the note. `None` is a panic; otherwise the post as built.
   */
  function BoostNote(src: nat -> string, s: State, note: Ap.Post, author: Ap.Person,
                     authorInfo: Ap.RemoteInfo, created: Option<Time.Instant>, now: Time.Instant)
    : (r: (State, Option<Db.Post>))
  {
    var a := AuthorEffect(s, src, author, authorInfo, now);
    NoteAfterAuthor(src, a.0, a.1, note, created)
  }

  /** The note's half of Boost once the author step left `s1` and handed out `u`. */
  function NoteAfterAuthor(src: nat -> string, s1: State, u: Option<Db.User>, note: Ap.Post,
                           created: Option<Time.Instant>): (r: (State, Option<Db.Post>))
  {
    if u.None? then (s1, None)
    else if created.None? then (s1.(next := s1.next + 1), None)
    else
      var w := NoteWrites(src, s1.(next := s1.next + 1), src(s1.next), note, u.value, created.value, None);
      (w.0, if w.2 then Some(w.1) else None)
  }

  method StoreBoostNote(conn: Connection, ids: Oracle.Ids, note: Ap.Post, author: Ap.Person,
                        authorInfo: Ap.RemoteInfo, created: Option<Time.Instant>, now: Time.Instant)
    returns (boosted: Option<Db.Post>)
    modifies conn, ids
    ensures var r := BoostNote(ids.source, State(old(conn.tables), old(ids.next)), note, author, authorInfo, created, now);
      conn.tables == r.0.tables && ids.next == r.0.next && boosted == r.1
  {
    var u := StoreAuthor(conn, ids, author, authorInfo, now);
    boosted := StoreNoteAfterAuthor(conn, ids, u, note, created);
  }

  method StoreNoteAfterAuthor(conn: Connection, ids: Oracle.Ids, u: Option<Db.User>, note: Ap.Post,
                              created: Option<Time.Instant>) returns (boosted: Option<Db.Post>)
    modifies conn, ids
    ensures var r := NoteAfterAuthor(ids.source, State(old(conn.tables), old(ids.next)), u, note, created);
      conn.tables == r.0.tables && ids.next == r.0.next && boosted == r.1
  {
    if u.None? {
      return None;
    }
    var id := ids.Fresh();
    if created.None? {
      return None;
    }
    var post, stored := StoreNote(conn, ids, id, note, u.value, created.value, None);
    boosted := if stored then Some(post) else None;
  }

  /**
   * The writes of Boost: after the boosted note, store the booster and the boost, which
   * refers to the boosted post by the id drawn for the note, even when `new_post` ignored
   * the note because its URI was already stored (see `BoostDangles`).
   */
  function BoostWrites(src: nat -> string, s: State, person: Ap.Person, info: Ap.RemoteInfo,
                                note: Ap.Post, author: Ap.Person, authorInfo: Ap.RemoteInfo,
                                created: Option<Time.Instant>, published: Option<Time.Instant>,
                                now: Time.Instant): (r: (State, bool))
  {
    var (s2, boosted) := BoostNote(src, s, note, author, authorInfo, created, now);
    if boosted.None? then (s2, false)
    else BaseWrites(src, s2, person, info, boosted.value, published, now)
  }

  /** The boosted post as the store holds it: the row with its URI, which `new_post` may have kept. */
  function StoredAs(t: Tables, boosted: Db.Post): (r: Db.Post)
    ensures r.uri == boosted.uri
    ensures Taken(t.post, PostUri, boosted.uri) ==> Taken(t.post, PostId, r.id)
  {
    match Find(t.post, PostUri, boosted.uri)
    case Some(row) => boosted.(id := row.id)
    case None => boosted
  }

  /**
   * The writes of Boost, corrected: as `BoostWrites`, except that the boost refers to the
   * boosted post by the id of the row that holds its URI (see `BoostResolves`).
   */
  function BoostWritesCorrected(src: nat -> string, s: State, person: Ap.Person, info: Ap.RemoteInfo,
                       note: Ap.Post, author: Ap.Person, authorInfo: Ap.RemoteInfo,
                       created: Option<Time.Instant>, published: Option<Time.Instant>,
                       now: Time.Instant): (r: (State, bool))
  {
    var (s2, boosted) := BoostNote(src, s, note, author, authorInfo, created, now);
    if boosted.None? then (s2, false)
    else BaseWrites(src, s2, person, info, StoredAs(s2.tables, boosted.value), published, now)
  }

  method StoreBoost(conn: Connection, ids: Oracle.Ids, person: Ap.Person, info: Ap.RemoteInfo,
                    note: Ap.Post, author: Ap.Person, authorInfo: Ap.RemoteInfo,
                    created: Option<Time.Instant>, published: Option<Time.Instant>, now: Time.Instant)
    returns (ok: bool)
    modifies conn, ids
    ensures var r := BoostWrites(ids.source, State(old(conn.tables), old(ids.next)), person, info, note,
                                 author, authorInfo, created, published, now);
      conn.tables == r.0.tables && ids.next == r.0.next && ok == r.1
  {
    var boosted := StoreBoostNote(conn, ids, note, author, authorInfo, created, now);
    if boosted.None? {
      return false;
    }
    ok := StoreBase(conn, ids, person, info, boosted.value, published, now);
  }

  /**
   * The fetches of Boost: the booster, then (once its remote info is known) the boosted
   * note, then the note's `attributedTo` author; each stops the handler when it fails.
   */
  function BoostGets(env: Env, a: Ap.BoostActivity): (r: seq<string>)
    ensures 1 <= |r| <= 3 && r[0] == a.actor
  {
    match Fetch.PersonAt(env.remote, a.actor)
    case None => [a.actor]
    case Some(person) =>
      if Ap.RemoteInfoOf(person).None? then [a.actor]
      else
        match Fetch.NoteAt(env.remote, a.objectId)
        case None => [a.actor, a.objectId]
        case Some(note) =>
          if note.attributedTo.None? then [a.actor, a.objectId]
          else [a.actor, a.objectId, note.attributedTo.value]
  }

  /** What the fetches of Boost yield: the booster and its remote info, the note, its author and theirs. */
  datatype Fetched = Fetched(person: Ap.Person, info: Ap.RemoteInfo, note: Ap.Post,
                             author: Ap.Person, authorInfo: Ap.RemoteInfo)

  /** `None` is the panic of a fetch that fails, a note without an author, or an id without a host. */
  function BoostFetched(env: Env, a: Ap.BoostActivity): (r: Option<Fetched>)
    ensures r.Some? ==>
      && Fetch.PersonAt(env.remote, a.actor) == Some(r.value.person)
      && Ap.RemoteInfoOf(r.value.person) == Some(r.value.info)
      && Fetch.NoteAt(env.remote, a.objectId) == Some(r.value.note)
      && r.value.note.attributedTo.Some?
      && Fetch.PersonAt(env.remote, r.value.note.attributedTo.value) == Some(r.value.author)
      && Ap.RemoteInfoOf(r.value.author) == Some(r.value.authorInfo)
  {
    match Fetch.PersonAt(env.remote, a.actor)
    case None => None
    case Some(person) =>
      match Ap.RemoteInfoOf(person)
      case None => None
      case Some(info) =>
        match Fetch.NoteAt(env.remote, a.objectId)
        case None => None
        case Some(note) =>
          match note.attributedTo
          case None => None
          case Some(attributed) =>
            match Fetch.PersonAt(env.remote, attributed)
            case None => None
            case Some(author) =>
              match Ap.RemoteInfoOf(author)
              case None => None
              case Some(authorInfo) => Some(Fetched(person, info, note, author, authorInfo))
  }

  /** Boost: the fetches, signed with the boosted user's key, then the writes. */
  function BoostEffect(env: Env, src: nat -> string, s: State, a: Ap.BoostActivity, target: Db.User)
    : (e: Effect)
  {
    match BoostFetched(env, a)
    case None => Effect(s, false, BoostGets(env, a), None)
    case Some(f) =>
      var (s1, ok) := BoostWrites(src, s, f.person, f.info, f.note, f.author, f.authorInfo,
                                  Stamp(f.note.ts), Stamp(a.published), env.now);
      Effect(s1, ok, BoostGets(env, a), None)
  }

  /** The fetches of Boost, each signed with `key`. */
  method FetchBoost(client: Http.HttpClient, env: Env, key: string, a: Ap.BoostActivity)
    returns (r: Option<Fetched>)
    modifies client
    ensures r == BoostFetched(env, a)
    ensures client.sent == old(client.sent) + Fetches(env.crypto, key, BoostGets(env, a), env.now)
  {
    ghost var sent := client.sent;
    FetchesOne(env.crypto, key, a.actor, env.now);
    var person := Fetch.GetPerson(client, env.crypto, env.remote, key, a.actor, env.now);
    if person.None? || Ap.RemoteInfoOf(person.value).None? {
      assert BoostGets(env, a) == [a.actor];
      return None;
    }
    var info := Ap.RemoteInfoOf(person.value);
    var note := Fetch.GetNote(client, env.crypto, env.remote, key, a.objectId, env.now);
    FetchesTwo(sent, env.crypto, key, a.actor, a.objectId, env.now);
    if note.None? || note.value.attributedTo.None? {
      assert BoostGets(env, a) == [a.actor, a.objectId];
      return None;
    }
    var attributed := note.value.attributedTo.value;
    assert BoostGets(env, a) == [a.actor, a.objectId, attributed];
    FetchesThree(sent, env.crypto, key, a.actor, a.objectId, attributed, env.now);
    var author := Fetch.GetPerson(client, env.crypto, env.remote, key, attributed, env.now);
    if author.None? {
      return None;
    }
    var authorInfo := Ap.RemoteInfoOf(author.value);
    if authorInfo.None? {
      return None;
    }
    return Some(Fetched(person.value, info.value, note.value, author.value, authorInfo.value));
  }

  method HandleBoost(conn: Connection, ids: Oracle.Ids, client: Http.HttpClient, env: Env,
                     a: Ap.BoostActivity, target: Db.User)
    returns (ok: bool)
    modifies conn, ids, client
    ensures var e := BoostEffect(env, ids.source, State(old(conn.tables), old(ids.next)), a, target);
      conn.tables == e.state.tables && ids.next == e.state.next && ok == e.finished && e.message.None?
    ensures client.sent == old(client.sent) + Fetches(env.crypto, KeyId(target), BoostGets(env, a), env.now)
  {
    var f := FetchBoost(client, env, KeyId(target), a);
    if f.None? {
      return false;
    }
    var v := f.value;
    ok := StoreBoost(conn, ids, v.person, v.info, v.note, v.author, v.authorInfo,
                     Stamp(v.note.ts), Stamp(a.published), env.now);
  }

  // ---------------------------------------------------------- dispatcher

  /** `handle_inbox_request`: Delete and Like are logged and change nothing. */
  function InboxEffect(env: Env, src: nat -> string, s: State, req: Queue.InboxRequest): (e: Effect)
  {
    match req
    case Delete(_, _) => Effect(s, true, [], None)
    case Like(_, _) => Effect(s, true, [], None)
    case Follow(a, followed) => FollowEffect(env, src, s, a, followed)
    case Create(a, user) => CreateEffect(env, src, s, a, user)
    case Boost(a, target) => BoostEffect(env, src, s, a, target)
  }

  /** The key a request's fetches are signed with: that of the local user it is addressed to. */
  function RequestKey(req: Queue.InboxRequest): string {
    match req
    case Delete(_, u) => KeyId(u)
    case Like(_, u) => KeyId(u)
    case Follow(_, u) => KeyId(u)
    case Create(_, u) => KeyId(u)
    case Boost(_, u) => KeyId(u)
  }

  /**
   * How a request ends, given its effect and the outbound queue as the handler found it: its
   * own panic; else a send to a queue whose worker has ended panics, and a send to a full
   * queue waits.
   */
  function OutcomeOf(e: Effect, receiverGone: bool, queued: nat): (o: Outcome)
    ensures o == Blocked ==> e.finished && e.message.Some? && queued == Queue.CAPACITY
    ensures !e.finished ==> o == Panic
    ensures e.finished && e.message.None? ==> o == Done
  {
    if !e.finished then Panic
    else if e.message.None? then Done
    else if receiverGone then Panic
    else if queued == Queue.CAPACITY then Blocked
    else Done
  }

  /** Follow, its Accept then handed to the outbound queue. */
  method FollowAndSend(conn: Connection, ids: Oracle.Ids, client: Http.HttpClient, outbound: Queue.Channel,
                       env: Env, a: Ap.FollowActivity, followed: Db.User) returns (o: Outcome)
    requires outbound.Valid()
    modifies conn, ids, client, outbound
    ensures outbound.Valid()
    ensures var e := FollowEffect(env, ids.source, State(old(conn.tables), old(ids.next)), a, followed);
      && conn.tables == e.state.tables && ids.next == e.state.next
      && client.sent == old(client.sent) + Fetches(env.crypto, KeyId(followed), e.gets, env.now)
      && o == OutcomeOf(e, old(outbound.receiverGone), |old(outbound.buffer)|)
      && outbound.buffer == (if o == Done && e.message.Some? then old(outbound.buffer) + [e.message.value]
                             else old(outbound.buffer))
    ensures outbound.taken == old(outbound.taken)
    ensures outbound.receiverGone == old(outbound.receiverGone) && outbound.sendersGone == old(outbound.sendersGone)
  {
    FetchesOne(env.crypto, KeyId(followed), a.actor, env.now);
    var ok, msg := HandleFollow(conn, ids, client, env, a, followed);
    if !ok {
      return Panic;
    }
    var r := outbound.Send(msg.value);
    o := if r == Queue.Sent then Done else if r == Queue.Full then Blocked else Panic;
  }

  /**
   * One inbound request, run against the store, the id generator, the HTTP client and the
   * outbound queue. A `Blocked` outcome stops where the send would wait.
   */
  method Handle(conn: Connection, ids: Oracle.Ids, client: Http.HttpClient, outbound: Queue.Channel,
                env: Env, req: Queue.InboxRequest) returns (o: Outcome)
    requires outbound.Valid()
    modifies conn, ids, client, outbound
    ensures outbound.Valid()
    ensures var e := InboxEffect(env, ids.source, State(old(conn.tables), old(ids.next)), req);
      && conn.tables == e.state.tables && ids.next == e.state.next
      && client.sent == old(client.sent) + Fetches(env.crypto, RequestKey(req), e.gets, env.now)
      && o == OutcomeOf(e, old(outbound.receiverGone), |old(outbound.buffer)|)
      && outbound.buffer == (if o == Done && e.message.Some? then old(outbound.buffer) + [e.message.value]
                             else old(outbound.buffer))
    ensures outbound.taken == old(outbound.taken)
    ensures outbound.receiverGone == old(outbound.receiverGone) && outbound.sendersGone == old(outbound.sendersGone)
  {
    match req {
      case Delete(_, _) =>
        o := Done;
      case Like(_, _) =>
        o := Done;
      case Follow(a, followed) =>
        o := FollowAndSend(conn, ids, client, outbound, env, a, followed);
      case Create(a, user) =>
        o := CreateArm(conn, ids, client, outbound, env, a, user);
      case Boost(a, target) =>
        o := BoostArm(conn, ids, client, outbound, env, a, target);
    }
  }

  /** The Create arm of `Handle`: nothing goes to the outbound queue. */
  method CreateArm(conn: Connection, ids: Oracle.Ids, client: Http.HttpClient, outbound: Queue.Channel,
                   env: Env, a: Ap.CreateActivity, user: Db.User) returns (o: Outcome)
    modifies conn, ids, client
    ensures var e := CreateEffect(env, ids.source, State(old(conn.tables), old(ids.next)), a, user);
      && conn.tables == e.state.tables && ids.next == e.state.next
      && client.sent == old(client.sent) + Fetches(env.crypto, KeyId(user), e.gets, env.now)
      && o == OutcomeOf(e, outbound.receiverGone, |outbound.buffer|) && e.message.None?
  {
    FetchesOne(env.crypto, KeyId(user), a.actor, env.now);
    var ok := HandleCreate(conn, ids, client, env, a, user);
    o := if ok then Done else Panic;
  }

  /** The Announce arm of `Handle`: nothing goes to the outbound queue. */
  method BoostArm(conn: Connection, ids: Oracle.Ids, client: Http.HttpClient, outbound: Queue.Channel,
                  env: Env, a: Ap.BoostActivity, target: Db.User) returns (o: Outcome)
    modifies conn, ids, client
    ensures var e := BoostEffect(env, ids.source, State(old(conn.tables), old(ids.next)), a, target);
      && conn.tables == e.state.tables && ids.next == e.state.next
      && client.sent == old(client.sent) + Fetches(env.crypto, KeyId(target), e.gets, env.now)
      && o == OutcomeOf(e, outbound.receiverGone, |outbound.buffer|) && e.message.None?
  {
    var ok := HandleBoost(conn, ids, client, env, a, target);
    o := if ok then Done else Panic;
  }

  // ------------------------------------------------------------ properties

  /**
   * A Follow that gets past its fetch stores the follower's actor; it finishes exactly when
   * the follow id it draws is new, and then the follow table gains one row (holding the
   * follower twice, as `new_follow` writes it) and the Accept goes to the follower, names
   * the Follow as its object and the followed user as its actor, and is signed with that
   * user's key.
   */
  lemma FollowStores(src: nat -> string, s: State, a: Ap.FollowActivity, follower: Ap.Person, followed: Db.User)
    ensures var r := FollowWrites(src, s, a, follower, followed);
      && Taken(r.0.tables.actor, ActorId, follower.obj.id)
      && (r.1.Some? <==> !Taken(s.tables.follow, FollowId, Db.ACTIVITIES_BASE + src(s.next)))
      && (r.1.Some? ==>
            && r.0.next == s.next + 2
            && r.0.tables.follow == s.tables.follow + [FollowRow(Db.ACTIVITIES_BASE + src(s.next), follower.obj.id, follower.obj.id)]
            && r.1.value.Outbound? && r.1.value.outbound.Accept?
            && r.1.value.outbound.accept.obj.id == Db.ACTIVITIES_BASE + src(s.next + 1)
            && r.1.value.outbound.accept.objectId == a.obj.id
            && r.1.value.outbound.accept.actor == followed.actor.id
            && r.1.value.outbound.keyId == KeyId(followed)
            && r.1.value.outbound.person == follower)
      && (r.1.None? ==> r.0.next == s.next + 1 && r.0.tables.follow == s.tables.follow)
  {
  }

  /**
   * Only a Follow hands anything to the outbound queue, and what it hands over is always an
   * outbound Accept.
   */
  lemma OnlyFollowQueues(env: Env, src: nat -> string, s: State, req: Queue.InboxRequest)
    ensures var e := InboxEffect(env, src, s, req);
      e.message.Some? ==> req.Follow? && e.message.value.Outbound? && e.message.value.outbound.Accept?
  {
  }

  /** The author step keeps the store's key invariant. */
  lemma AuthorKeepsValid(s: State, src: nat -> string, p: Ap.Person, info: Ap.RemoteInfo, now: Time.Instant)
    requires Valid(s.tables)
    ensures Valid(AuthorEffect(s, src, p, info, now).0.tables)
  {
    var t1 := Make.NewActorEffect(s.tables, ActorOf(p)).0;
    Make.NewActorKeepsValid(s.tables, ActorOf(p));
    match Get.UserByActorUri(t1, p.obj.id)
    case Panic =>
    case Got(u) => Make.NewUserKeepsValid(t1, u);
    case Failed(_) => Make.NewUserKeepsValid(t1, NewUserFor(p, info, src(s.next), now));
  }

  /**
   * A Create that finishes leaves the note's author stored (actor and user) and the note's
   * URI in the post table; if that URI was new, the last row is the note, under the post id
   * drawn first and with no boosted post. A timestamp that does not parse panics after that
   * draw, with nothing written.
   */
  lemma CreateStores(src: nat -> string, s: State, a: Ap.CreateActivity, person: Ap.Person,
                     info: Ap.RemoteInfo, created: Option<Time.Instant>, now: Time.Instant)
    ensures var r := CreateWrites(src, s, a, person, info, created, now);
      && (created.None? ==> r.0 == s.(next := s.next + 1) && !r.1)
      && (r.1 ==>
            && Taken(r.0.tables.actor, ActorId, person.obj.id)
            && Taken(r.0.tables.user, UserActorId, person.obj.id)
            && Taken(r.0.tables.post, PostUri, a.note.obj.id)
            && (!Taken(s.tables.post, PostUri, a.note.obj.id) ==>
                  && |r.0.tables.post| == |s.tables.post| + 1
                  && r.0.tables.post[|s.tables.post|].id == src(s.next)
                  && r.0.tables.post[|s.tables.post|].uri == a.note.obj.id
                  && r.0.tables.post[|s.tables.post|].content == a.note.content
                  && r.0.tables.post[|s.tables.post|].boostedPostId.None?))
  {
    var r := CreateWrites(src, s, a, person, info, created, now);
    if created.Some? {
      AuthorFrame(s.(next := s.next + 1), src, person, info, now);
      var (s2, author) := AuthorEffect(s.(next := s.next + 1), src, person, info, now);
      if author.Some? {
        var atts := AttachmentsFor(a.note.attachment, src, s2.next, src(s.next));
        var post := Db.Post(src(s.next), a.note.obj.id, author.value, a.note.content, created.value, None, atts);
        Make.NewPostRows(s2.tables, post);
        if r.1 && !Taken(s.tables.post, PostUri, a.note.obj.id) {
          Make.NewPostStoresBoost(s2.tables, post);
        }
      }
    }
  }

  lemma NoteKeepsValid(src: nat -> string, s: State, postId: string, note: Ap.Post, author: Db.User,
                       created: Time.Instant, boosted: Option<Db.Post>)
    requires Valid(s.tables)
    ensures Valid(NoteWrites(src, s, postId, note, author, created, boosted).0.tables)
  {
    var atts := AttachmentsFor(note.attachment, src, s.next, postId);
    Make.NewPostKeepsValid(s.tables, Db.Post(postId, note.obj.id, author, note.content, created, boosted, atts));
  }

  lemma BaseKeepsValid(src: nat -> string, s: State, person: Ap.Person, info: Ap.RemoteInfo,
                       boosted: Db.Post, published: Option<Time.Instant>, now: Time.Instant)
    requires Valid(s.tables)
    ensures Valid(BaseWrites(src, s, person, info, boosted, published, now).0.tables)
  {
    AuthorKeepsValid(s, src, person, info, now);
    var (s1, u) := AuthorEffect(s, src, person, info, now);
    if u.Some? && published.Some? {
      Make.NewPostKeepsValid(s1.tables, BaseOf(src(s1.next), person, u.value, published.value, boosted));
    }
  }

  /** Every inbound request keeps the store's key invariant, wherever it stops. */
  lemma HandlersKeepValid(env: Env, src: nat -> string, s: State, req: Queue.InboxRequest)
    requires Valid(s.tables)
    ensures Valid(InboxEffect(env, src, s, req).state.tables)
  {
    match req
    case Delete(_, _) =>
    case Like(_, _) =>
    case Follow(a, followed) => FollowEffectKeepsValid(env, src, s, a, followed);
    case Create(a, user) => CreateEffectKeepsValid(env, src, s, a, user);
    case Boost(a, target) => BoostEffectKeepsValid(env, src, s, a, target);
  }

  lemma FollowEffectKeepsValid(env: Env, src: nat -> string, s: State, a: Ap.FollowActivity, followed: Db.User)
    requires Valid(s.tables)
    ensures Valid(FollowEffect(env, src, s, a, followed).state.tables)
  {
    var follower := Fetch.PersonAt(env.remote, a.actor);
    if follower.Some? {
      FollowKeepsValid(src, s, a, follower.value, followed);
    }
  }

  lemma CreateEffectKeepsValid(env: Env, src: nat -> string, s: State, a: Ap.CreateActivity, user: Db.User)
    requires Valid(s.tables)
    ensures Valid(CreateEffect(env, src, s, a, user).state.tables)
  {
    var person := Fetch.PersonAt(env.remote, a.actor);
    if person.Some? && Ap.RemoteInfoOf(person.value).Some? {
      CreateKeepsValid(src, s, a, person.value, Ap.RemoteInfoOf(person.value).value, Stamp(a.ts), env.now);
    }
  }

  lemma BoostEffectKeepsValid(env: Env, src: nat -> string, s: State, a: Ap.BoostActivity, target: Db.User)
    requires Valid(s.tables)
    ensures Valid(BoostEffect(env, src, s, a, target).state.tables)
  {
    var f := BoostFetched(env, a);
    if f.Some? {
      BoostKeepsValid(src, s, f.value, Stamp(f.value.note.ts), Stamp(a.published), env.now);
    }
  }

  lemma FollowKeepsValid(src: nat -> string, s: State, a: Ap.FollowActivity, follower: Ap.Person,
                         followed: Db.User)
    requires Valid(s.tables)
    ensures Valid(FollowWrites(src, s, a, follower, followed).0.tables)
  {
    Make.NewActorKeepsValid(s.tables, ActorOf(follower));
    var t1 := Make.NewActorEffect(s.tables, ActorOf(follower)).0;
    Make.NewFollowKeepsValid(t1, Db.Follow(Db.ACTIVITIES_BASE + src(s.next), follower.obj.id, followed.actor.id));
  }

  lemma CreateKeepsValid(src: nat -> string, s: State, a: Ap.CreateActivity, person: Ap.Person,
                         info: Ap.RemoteInfo, created: Option<Time.Instant>, now: Time.Instant)
    requires Valid(s.tables)
    ensures Valid(CreateWrites(src, s, a, person, info, created, now).0.tables)
  {
    var c := CreateWrites(src, s, a, person, info, created, now);
    if created.Some? {
      var s1 := s.(next := s.next + 1);
      AuthorKeepsValid(s1, src, person, info, now);
      var r := AuthorEffect(s1, src, person, info, now);
      if r.1.Some? {
        NoteKeepsValid(src, r.0, src(s.next), a.note, r.1.value, created.value, None);
        assert c.0 == NoteWrites(src, r.0, src(s.next), a.note, r.1.value, created.value, None).0;
      } else {
        assert c.0 == r.0;
      }
    } else {
      assert c.0.tables == s.tables;
    }
  }

  lemma BoostNoteKeepsValid(src: nat -> string, s: State, note: Ap.Post, author: Ap.Person,
                            authorInfo: Ap.RemoteInfo, created: Option<Time.Instant>, now: Time.Instant)
    requires Valid(s.tables)
    ensures Valid(BoostNote(src, s, note, author, authorInfo, created, now).0.tables)
  {
    AuthorKeepsValid(s, src, author, authorInfo, now);
    var r := AuthorEffect(s, src, author, authorInfo, now);
    var b := BoostNote(src, s, note, author, authorInfo, created, now);
    if r.1.Some? && created.Some? {
      var s1 := r.0.(next := r.0.next + 1);
      NoteKeepsValid(src, s1, src(r.0.next), note, r.1.value, created.value, None);
      assert b.0 == NoteWrites(src, s1, src(r.0.next), note, r.1.value, created.value, None).0;
    } else {
      assert b.0.tables == r.0.tables;
    }
  }

  lemma BoostKeepsValid(src: nat -> string, s: State, f: Fetched, created: Option<Time.Instant>,
                        published: Option<Time.Instant>, now: Time.Instant)
    requires Valid(s.tables)
    ensures Valid(BoostWrites(src, s, f.person, f.info, f.note, f.author, f.authorInfo, created, published, now).0.tables)
  {
    BoostNoteKeepsValid(src, s, f.note, f.author, f.authorInfo, created, now);
    var (s2, boosted) := BoostNote(src, s, f.note, f.author, f.authorInfo, created, now);
    if boosted.Some? {
      BaseKeepsValid(src, s2, f.person, f.info, boosted.value, published, now);
    }
  }

  // ------------------------------------------- the boost's reference to its post

  lemma TakenGrows(rows: seq<PostRow>, more: seq<PostRow>, k: string)
    requires rows <= more && Taken(rows, PostId, k)
    ensures Taken(more, PostId, k)
  {
    var j :| 0 <= j < |rows| && PostId(rows[j]) == k;
    assert more[j] == rows[j];
  }

  /**
   * Storing a note adds at most its own row, which boosts nothing, and none when its URI is
   * on file; once it succeeds the URI is on file.
   */
  lemma NoteRows(src: nat -> string, s: State, postId: string, note: Ap.Post, author: Db.User,
                 created: Time.Instant)
    ensures var r := NoteWrites(src, s, postId, note, author, created, None);
      && r.1.id == postId && r.1.uri == note.obj.id
      && (r.0.tables.post == s.tables.post || r.0.tables.post == s.tables.post + [Make.PostRowOf(r.1)])
      && Make.PostRowOf(r.1).boostedPostId.None?
      && (Taken(s.tables.post, PostUri, note.obj.id) ==> r.0.tables.post == s.tables.post)
      && (r.2 ==> Taken(r.0.tables.post, PostUri, note.obj.id))
      && s.next <= r.0.next
  {
    var atts := AttachmentsFor(note.attachment, src, s.next, postId);
    Make.NewPostRows(s.tables, Db.Post(postId, note.obj.id, author, note.content, created, None, atts));
  }

  /**
   * The post table grew from `rows` to `post` by at most one row, at the end, while the id
   * source moved from `next` to `after`; a row added is a boost of `boostedId`, under the
   * last id drawn.
   */
  predicate AddsBoostRow(src: nat -> string, rows: seq<PostRow>, next: nat, boostedId: string,
                         post: seq<PostRow>, after: nat, ok: bool)
  {
    && rows <= post && |post| <= |rows| + 1
    && next <= after && (ok ==> next < after)
    && (|post| > |rows| ==>
          && next < after
          && post == rows + [post[|rows|]]
          && post[|rows|].id == src(after - 1)
          && post[|rows|].boostedPostId == Some(boostedId))
  }

  /**
   * Storing the booster and the boost adds at most the boost's row, at the end: its id is
   * the last one drawn and it names `boosted`.
   */
  lemma BaseRows(src: nat -> string, s: State, person: Ap.Person, info: Ap.RemoteInfo,
                 boosted: Db.Post, published: Option<Time.Instant>, now: Time.Instant)
    ensures var r := BaseWrites(src, s, person, info, boosted, published, now);
      AddsBoostRow(src, s.tables.post, s.next, boosted.id, r.0.tables.post, r.0.next, r.1)
  {
    AuthorKeepsPosts(s, src, person, info, now);
    var a := AuthorEffect(s, src, person, info, now);
    assert BaseWrites(src, s, person, info, boosted, published, now) == BaseAfter(src, a.0, a.1, person, boosted, published);
    BaseAfterRows(src, a.0, a.1, person, boosted, published, s.tables.post, s.next);
  }

  /** The same, for the boost's own write after a step that left the posts `rows` and drew from `next` on. */
  lemma BaseAfterRows(src: nat -> string, s1: State, u: Option<Db.User>, person: Ap.Person, boosted: Db.Post,
                      published: Option<Time.Instant>, rows: seq<PostRow>, next: nat)
    requires s1.tables.post == rows && next <= s1.next
    ensures var r := BaseAfter(src, s1, u, person, boosted, published);
      AddsBoostRow(src, rows, next, boosted.id, r.0.tables.post, r.0.next, r.1)
  {
    if u.Some? && published.Some? {
      var s2 := s1.(next := s1.next + 1);
      var base := BaseOf(src(s1.next), person, u.value, published.value, boosted);
      BasePostRows(s2, base, boosted);
      GrowsByOne(rows, PostWrites(s2, base).0.tables.post, Make.PostRowOf(base));
    }
  }

  lemma GrowsByOne(rows: seq<PostRow>, more: seq<PostRow>, row: PostRow)
    requires more == rows || more == rows + [row]
    ensures rows <= more && |more| <= |rows| + 1
    ensures |more| > |rows| ==> more == rows + [more[|rows|]] && more[|rows|] == row
  {
  }

  /** `new_post` of a boost adds at most its row, which names the boosted post. */
  lemma BasePostRows(s: State, base: Db.Post, boosted: Db.Post)
    requires base.boostedPost == Some(boosted)
    ensures var w := PostWrites(s, base);
      && w.0.next == s.next
      && (w.0.tables.post == s.tables.post || w.0.tables.post == s.tables.post + [Make.PostRowOf(base)])
      && Make.PostRowOf(base).id == base.id && Make.PostRowOf(base).boostedPostId == Some(boosted.id)
  {
    Make.NewPostRows(s.tables, base);
  }

  /** A boost that finishes adds its row when its URI was new. */
  lemma BaseAdded(src: nat -> string, s: State, person: Ap.Person, info: Ap.RemoteInfo,
                  boosted: Db.Post, published: Option<Time.Instant>, now: Time.Instant)
    ensures var r := BaseWrites(src, s, person, info, boosted, published, now);
      (r.1 && !Taken(s.tables.post, PostUri, ApPost.UriOf(person.obj.id, src(r.0.next - 1))))
        ==> |r.0.tables.post| > |s.tables.post|
  {
    AuthorFrame(s, src, person, info, now);
    var (s1, u) := AuthorEffect(s, src, person, info, now);
    var r := BaseWrites(src, s, person, info, boosted, published, now);
    if u.Some? && published.Some? {
      var base := BaseOf(src(s1.next), person, u.value, published.value, boosted);
      var w := PostWrites(s1.(next := s1.next + 1), base);
      assert r.0.next == w.0.next;
      assert r.0.tables == w.0.tables;
      assert r.1 == w.1;
      Make.NewPostRows(s1.tables, base);
    }
  }

  /**
   * The first half of Boost adds at most the note's row, which boosts nothing, and none
   * when the note's URI is on file; the post it hands on carries the id drawn after the
   * author step, and its URI is then on file.
   */
  lemma BoostNoteRows(src: nat -> string, s: State, note: Ap.Post, author: Ap.Person,
                      authorInfo: Ap.RemoteInfo, created: Option<Time.Instant>, now: Time.Instant)
    ensures var r := BoostNote(src, s, note, author, authorInfo, created, now);
      var k := AuthorEffect(s, src, author, authorInfo, now).0.next;
      && s.next <= k && s.next <= r.0.next
      && AddsPlainRow(s.tables.post, r.0.tables.post)
      && (Taken(s.tables.post, PostUri, note.obj.id) ==> r.0.tables.post == s.tables.post)
      && (r.1.Some? ==>
            && r.1.value.id == src(k) && k < r.0.next && r.1.value.uri == note.obj.id
            && Taken(r.0.tables.post, PostUri, note.obj.id))
  {
    AuthorFrame(s, src, author, authorInfo, now);
    var a := AuthorEffect(s, src, author, authorInfo, now);
    NoteAfterAuthorRows(src, a.0, a.1, note, created);
  }

  /** `after` is `before` with at most one row added at the end, a row that boosts nothing. */
  predicate AddsPlainRow(before: seq<PostRow>, after: seq<PostRow>) {
    && before <= after && |after| <= |before| + 1
    && (|after| > |before| ==> after[|before|].boostedPostId.None?)
  }

  /** `BoostNoteRows` from the state the author step leaves. */
  lemma NoteAfterAuthorRows(src: nat -> string, s1: State, u: Option<Db.User>, note: Ap.Post,
                            created: Option<Time.Instant>)
    ensures var r := NoteAfterAuthor(src, s1, u, note, created);
      && s1.next <= r.0.next
      && AddsPlainRow(s1.tables.post, r.0.tables.post)
      && (Taken(s1.tables.post, PostUri, note.obj.id) ==> r.0.tables.post == s1.tables.post)
      && (r.1.Some? ==>
            && r.1.value.id == src(s1.next) && s1.next < r.0.next && r.1.value.uri == note.obj.id
            && Taken(r.0.tables.post, PostUri, note.obj.id))
  {
    if u.Some? && created.Some? {
      NoteRows(src, s1.(next := s1.next + 1), src(s1.next), note, u.value, created.value);
    }
  }

  /** Boost in its two halves, the corrected and the as-written one, as far as the post table goes. */
  lemma BoostHalves(src: nat -> string, s: State, person: Ap.Person, info: Ap.RemoteInfo,
                    note: Ap.Post, author: Ap.Person, authorInfo: Ap.RemoteInfo,
                    created: Option<Time.Instant>, published: Option<Time.Instant>, now: Time.Instant)
    ensures var n := BoostNote(src, s, note, author, authorInfo, created, now);
      && BoostWritesCorrected(src, s, person, info, note, author, authorInfo, created, published, now).0.tables.post
         == (if n.1.None? then n.0.tables.post
             else BaseWrites(src, n.0, person, info, StoredAs(n.0.tables, n.1.value), published, now).0.tables.post)
      && BoostWrites(src, s, person, info, note, author, authorInfo, created, published, now).0.tables.post
         == (if n.1.None? then n.0.tables.post
             else BaseWrites(src, n.0, person, info, n.1.value, published, now).0.tables.post)
      && (BoostWrites(src, s, person, info, note, author, authorInfo, created, published, now).1
          ==> n.1.Some? && BaseWrites(src, n.0, person, info, n.1.value, published, now).1)
  {
  }

  /** A note row that boosts nothing, then a boost of a stored post, keep every boost resolvable. */
  lemma ResolveChain(r0: seq<PostRow>, r1: seq<PostRow>, r2: seq<PostRow>, id: string)
    requires BoostsResolve(r0)
    requires AddsPlainRow(r0, r1)
    requires r2 == r1 || (|r2| == |r1| + 1 && r2 == r1 + [r2[|r1|]] && r2[|r1|].boostedPostId == Some(id) && Taken(r1, PostId, id))
    ensures BoostsResolve(r2)
  {
    if |r1| > |r0| {
      assert r1 == r0 + [r1[|r0|]];
      AppendResolves(r0, r1[|r0|]);
    } else {
      assert r1 == r0;
    }
    if r2 != r1 {
      AppendResolves(r1, r2[|r1|]);
    }
  }

  /** A boost row, whose own id differs, naming an id no earlier row has, refers to no post. */
  lemma DangleChain(r0: seq<PostRow>, r2: seq<PostRow>, id: string)
    requires !Taken(r0, PostId, id)
    requires |r2| == |r0| + 1 && r2 == r0 + [r2[|r0|]] && r2[|r0|].boostedPostId == Some(id) && r2[|r0|].id != id
    ensures !BoostsResolve(r2)
  {
    forall j | 0 <= j < |r2|
      ensures PostId(r2[j]) != id
    {
      if j < |r0| {
        assert r2[j] == r0[j];
      }
    }
    assert r2[|r0|].boostedPostId.Some? && !Taken(r2, PostId, r2[|r0|].boostedPostId.value);
  }

  /**
   * The corrected Boost keeps every boost resolvable: the boost names the id of the row that
   * holds the boosted note's URI, whether or not `new_post` just wrote that row.
   */
  lemma BoostResolves(src: nat -> string, s: State, person: Ap.Person, info: Ap.RemoteInfo,
                      note: Ap.Post, author: Ap.Person, authorInfo: Ap.RemoteInfo,
                      created: Option<Time.Instant>, published: Option<Time.Instant>, now: Time.Instant)
    requires BoostsResolve(s.tables.post)
    ensures BoostsResolve(BoostWritesCorrected(src, s, person, info, note, author, authorInfo, created, published, now).0.tables.post)
  {
    BoostHalves(src, s, person, info, note, author, authorInfo, created, published, now);
    BoostNoteRows(src, s, note, author, authorInfo, created, now);
    var n := BoostNote(src, s, note, author, authorInfo, created, now);
    if n.1.None? {
      ResolveChain(s.tables.post, n.0.tables.post, n.0.tables.post, "");
    } else {
      var stored := StoredAs(n.0.tables, n.1.value);
      BaseRows(src, n.0, person, info, stored, published, now);
      var b := BaseWrites(src, n.0, person, info, stored, published, now);
      ResolveChain(s.tables.post, n.0.tables.post, b.0.tables.post, stored.id);
    }
  }

  /**
   * As written, Boost can store a boost that refers to no post: when the boosted note's URI
   * is already stored, `new_post` ignores the note, yet the boost names the fresh id drawn
   * for it. Here the ids the generator hands out are distinct and unused, the base note's
   * URI is new, the note is on file, and the handler runs to its end.
   */
  lemma BoostDangles(src: nat -> string, s: State, person: Ap.Person, info: Ap.RemoteInfo,
                     note: Ap.Post, author: Ap.Person, authorInfo: Ap.RemoteInfo,
                     created: Option<Time.Instant>, published: Option<Time.Instant>, now: Time.Instant)
    requires forall i, j :: i != j ==> src(i) != src(j)
    requires forall k :: s.next <= k ==> !Taken(s.tables.post, PostId, src(k))
    requires forall k :: s.next <= k ==> !Taken(s.tables.post, PostUri, ApPost.UriOf(person.obj.id, src(k)))
    requires Taken(s.tables.post, PostUri, note.obj.id)
    requires BoostWrites(src, s, person, info, note, author, authorInfo, created, published, now).1
    ensures !BoostsResolve(BoostWrites(src, s, person, info, note, author, authorInfo, created, published, now).0.tables.post)
  {
    BoostHalves(src, s, person, info, note, author, authorInfo, created, published, now);
    BoostNoteRows(src, s, note, author, authorInfo, created, now);
    var k := AuthorEffect(s, src, author, authorInfo, now).0.next;
    var n := BoostNote(src, s, note, author, authorInfo, created, now);
    BaseRows(src, n.0, person, info, n.1.value, published, now);
    BaseAdded(src, n.0, person, info, n.1.value, published, now);
    var b := BaseWrites(src, n.0, person, info, n.1.value, published, now);
    assert !Taken(n.0.tables.post, PostUri, ApPost.UriOf(person.obj.id, src(b.0.next - 1)));
    assert src(b.0.next - 1) != src(k);
    DangleChain(s.tables.post, b.0.tables.post, src(k));
  }
}
