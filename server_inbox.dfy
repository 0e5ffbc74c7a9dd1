/**
 * The inbox endpoint the server mounts (`ferri-server/src/endpoints/inbox.rs`): the body's
 * `type` picks a handler; Follow, Create and Announce fetch the remote documents they need,
 * register the remote actors and users, and write follows, accepts and posts. Every
 * `unwrap` and `assert!` that fails is a panic, which ends the request with whatever was
 * already written kept in the store.
 */
module ServerInbox {
  import opened Wrappers
  import Time
  import Url
  import Http
  import Ap = ApTypes
  import Db = DbTypes
  import opened Store
  import Make
  import Oracle
  import ApUser
  import Activity

  /** The key the boost handler signs its fetches with, whoever the inbox belongs to. */
  const BOOST_KEY := Db.USERS_BASE + "amy#main-key"

  // ------------------------------------------------------------- documents

  /** The server's `Person` (`ferri-server/src/types/mod.rs`); the JSON-LD context is not read. */
  datatype Person = Person(
    id: string, ty: string, following: string, followers: string, inbox: string,
    outbox: string, preferredUsername: string, name: string, summary: string,
    publicKey: Option<Ap.UserKey>)

  /** The server's `content::Post`, with the `attributed_to` the boost handler reads. */
  datatype Note = Note(
    id: string, ty: string, ts: string, content: string, to: seq<string>, cc: seq<string>,
    attributedTo: Option<string>)

  datatype DeleteActivity = DeleteActivity(id: string, ty: string, obj: string, actor: string)

  datatype CreateActivity = CreateActivity(
    id: string, ty: string, obj: Note, actor: string, to: seq<string>, cc: seq<string>,
    ts: string, summary: string)

  datatype FollowActivity = FollowActivity(id: string, ty: string, obj: string, actor: string)

  datatype LikeActivity = LikeActivity(id: string, ty: string, obj: string, actor: string)

  datatype BoostActivity = BoostActivity(id: string, ty: string, actor: string, obj: string)

  /**
   * The request body as each of the handler's `serde_json::from_str` calls reads it:
   * `kind` is the `type` of the minimal `{id, type}` parse, and each other field is the
   * parse as that activity; `None` is a parse that fails.
   */
  datatype Body = Body(
    kind: Option<string>, delete: Option<DeleteActivity>, follow: Option<FollowActivity>,
    create: Option<CreateActivity>, like: Option<LikeActivity>, boost: Option<BoostActivity>)

  /** The Person or the Note a remote server answers with at a URL; `None` where it fails. */
  datatype Remote = Remote(person: string -> Option<Person>, note: string -> Option<Note>)

  /**
   * What the handlers read from outside: the signing primitives, the remote servers, the
   * clock as signatures read it, `Local::now().to_rfc3339()` and `new_ts()` as strings, the
   * serialisation of the Accept envelope, and whether the follower's server answers a POST
   * (`false` where `send()` or `text()` fails).
   */
  datatype Env = Env(
    crypto: Http.Primitives, remote: Remote, now: Time.Instant, localNow: string,
    newTs: string, encode: Activity.RawActivity<string> -> string, answers: Http.Request -> bool)

  /** The handler the `match` on the type picks; `Dropped` is the logged unknown type. */
  datatype Route = DeleteRoute | FollowRoute | CreateRoute | LikeRoute | BoostRoute | Dropped

  /** The tables, the id counter, and a flag: a write statement's outcome. */
  datatype Step = Step(tables: Tables, next: nat, ok: bool)

  /**
   * A request's outcome: the tables and the id counter afterwards, the requests it put on
   * the wire, and whether it ran to the end (`false` is a panic).
   */
  datatype Effect = Effect(tables: Tables, next: nat, sent: seq<Http.Request>, finished: bool)

  // ------------------------------------------------------------- fetches

  function PersonAt(remote: Remote, url: string): (r: Option<Person>)
    ensures Http.IntoUrl(url).None? ==> r.None?
  {
    if Http.IntoUrl(url).Some? then remote.person(url) else None
  }

  function NoteAt(remote: Remote, url: string): (r: Option<Note>)
    ensures Http.IntoUrl(url).None? ==> r.None?
  {
    if Http.IntoUrl(url).Some? then remote.note(url) else None
  }

  /**
   * What `get(url).activity()` followed by `send()`, or by `sign(key).send()`, puts on the
   * wire: a GET with the media-type headers, then the signature headers if it is signed;
   * nothing for a URL the client refuses.
   */
  function FetchOf(p: Http.Primitives, key: Option<string>, url: string, now: Time.Instant)
    : (r: seq<Http.Request>)
    ensures |r| <= 1 && (|r| == 1 <==> Http.IntoUrl(url).Some?)
    ensures |r| == 1 ==>
      r[0].verb == Http.Get && r[0].url == Http.IntoUrl(url).value && r[0].payload.None?
    ensures |r| == 1 && key.None? ==> r[0].headers == Http.Preamble()
  {
    match Http.IntoUrl(url)
    case None => []
    case Some(u) =>
      var signed := if key.Some? then Http.SignedHeaders(p, Http.Get, u.host.value, u.path, "", key.value, now) else [];
      [Http.Request(Http.Get, u, Http.Preamble() + signed, None)]
  }

  /** A signed fetch carries the signature made with the given key over the URL's path. */
  lemma FetchSigned(p: Http.Primitives, key: string, url: string, now: Time.Instant)
    requires Http.IntoUrl(url).Some?
    ensures
      var u := Http.IntoUrl(url).value;
      Http.Lookup(FetchOf(p, Some(key), url, now)[0].headers, "Signature")
        == Some(Http.SignGet(p, u.host.value, u.path, key, now).signature)
  {
    var u := Http.IntoUrl(url).value;
    var s := Http.SignGet(p, u.host.value, u.path, key, now);
    var signed := [("Date", s.date), ("Signature", s.signature)];
    assert Http.SignedHeaders(p, Http.Get, u.host.value, u.path, "", key, now) == signed;
    Http.PreambleSkipped(signed, "Signature");
    assert signed[1..] == [("Signature", s.signature)];
  }

  method Fetch(client: Http.HttpClient, p: Http.Primitives, key: Option<string>, url: string,
               now: Time.Instant) returns (ok: bool)
    modifies client
    ensures ok <==> Http.IntoUrl(url).Some?
    ensures client.sent == old(client.sent) + FetchOf(p, key, url, now)
  {
    var b := client.Open(Http.Get, url);
    if b == null {
      return false;
    }
    ghost var u := Http.IntoUrl(url).value;
    assert b.verb == Http.Get && b.url == u;
    b.Activity();
    assert b.headers == Http.Preamble();
    if key.Some? {
      var signed := b.Sign(p, key.value, now);
      assert b.headers == Http.Preamble() + Http.SignedHeaders(p, Http.Get, u.host.value, u.path, "", key.value, now);
    } else {
      assert b.headers == Http.Preamble() + [];
    }
    assert b.Snapshot() == FetchOf(p, key, url, now)[0];
    client.Send(b);
    return true;
  }

  // ------------------------------------------------------------- statements

  /** `create_actor`: the actor row of the fetched Person, insert-or-ignore on `id`. */
  function CreateActor(t: Tables, p: Person, actor: string): (r: Tables)
    ensures r.(actor := t.actor) == t && t.actor <= r.actor
    ensures Taken(r.actor, ActorId, actor)
    ensures Taken(t.actor, ActorId, actor) ==> r == t
    ensures !Taken(t.actor, ActorId, actor) ==> r.actor == t.actor + [ActorRow(actor, p.inbox, p.outbox)]
  {
    var a := Db.Actor(actor, p.inbox, p.outbox);
    OneKey(t.actor, Make.ActorRowOf(a), ActorId);
    Make.NewActorEffect(t, a).0
  }

  /** The row `create_user` writes: the columns it does not name are NULL. */
  function UserRowFor(p: Person, actor: string, host: string, id: string): UserRow {
    UserRow(id, None, None, None, None, p.name + "@" + host, actor, p.preferredUsername, None)
  }

  /**
   * `create_user`: the username is the Person's `name` at the actor's host; a fresh id is
   * drawn once the host is known, and the row is insert-or-ignore on `actor_id`. An actor
   * without a host and a clash on the drawn id are panics.
   */
  function CreateUser(t: Tables, src: nat -> string, n: nat, p: Person, actor: string): (r: Step)
    ensures r.tables.(user := t.user) == t && t.user <= r.tables.user
    ensures Url.Host(actor).None? ==> r == Step(t, n, false)
    ensures Url.Host(actor).Some? ==> r.next == n + 1
    ensures Url.Host(actor).Some? && Taken(t.user, UserActorId, actor) ==> r == Step(t, n + 1, true)
    ensures Url.Host(actor).Some? && !Taken(t.user, UserActorId, actor) ==>
      && (r.ok <==> !Taken(t.user, UserId, src(n)))
      && r.tables.user == if r.ok then t.user + [UserRowFor(p, actor, Url.Host(actor).value, src(n))] else t.user
  {
    match Url.Host(actor)
    case None => Step(t, n, false)
    case Some(host) =>
      var row := UserRowFor(p, actor, host, src(n));
      TwoKeys(t.user, row, UserId, UserActorId);
      match InsertOrIgnore(t.user, row, UserActorId, UserKeys())
      case None => Step(t, n + 1, false)
      case Some(rows) => Step(t.(user := rows), n + 1, true)
  }

  /** `create_actor` then `create_user` for the same fetched Person. */
  function Register(t: Tables, src: nat -> string, n: nat, p: Person, actor: string): Step {
    CreateUser(CreateActor(t, p, actor), src, n, p, actor)
  }

  /**
   * `create_follow`: the activity's own id, the actor as follower and the object as the
   * followed, insert-or-ignore on `id`, the table's only key, so it never fails.
   */
  function CreateFollow(t: Tables, a: FollowActivity): (r: Tables)
    ensures r.(follow := t.follow) == t
    ensures Taken(t.follow, FollowId, a.id) ==> r == t
    ensures !Taken(t.follow, FollowId, a.id) ==> r.follow == t.follow + [FollowRow(a.id, a.actor, a.obj)]
  {
    var row := FollowRow(a.id, a.actor, a.obj);
    OneKey(t.follow, row, FollowId);
    t.(follow := InsertOrIgnore(t.follow, row, FollowId, FollowKeys()).value)
  }

  // ------------------------------------------------------------- handlers

  /**
   * The Accept the Follow arm answers with: a fresh activity id, the incoming activity's
   * id as object, signed with a key named after the followed user's username, and aimed
   * at the follower's actor.
   */
  function AcceptFor(follower: ApUser.User, followed: ApUser.User, a: FollowActivity, id: string,
                     now: Time.Instant): Activity.OutgoingActivity<string> {
    Activity.OutgoingActivity(
      Db.USERS_BASE + followed.username + "#main-key",
      Activity.Default(a.id, now).(id := Db.ACTIVITIES_BASE + id, ty := Activity.Accept),
      follower.actor)
  }

  /** The Follow arm once the follower's Person is known. */
  function FollowWrites(env: Env, src: nat -> string, t: Tables, n: nat, user: string,
                        a: FollowActivity, p: Person): (r: Effect)
  {
    var reg := Register(t, src, n, p, a.actor);
    if !reg.ok then Effect(reg.tables, reg.next, [], false)
    else FollowAccept(env, src, CreateFollow(reg.tables, a), reg.next, user, a)
  }

  /** Once the follow is stored: look both users up, save the Accept and post it. */
  function FollowAccept(env: Env, src: nat -> string, t1: Tables, k: nat, user: string,
                        a: FollowActivity): (r: Effect)
  {
    match (ApUser.FromActorId(t1, a.actor), ApUser.FromUsername(t1, user))
    case (Some(follower), Some(followed)) => SendAccept(env, src, t1, k, follower, followed, a)
    case _ => Effect(t1, k, [], false)
  }

  /** Draw the Accept's id, save the Accept and post it. */
  function SendAccept(env: Env, src: nat -> string, t1: Tables, k: nat, follower: ApUser.User,
                      followed: ApUser.User, a: FollowActivity): (r: Effect)
  {
    var out := AcceptFor(follower, followed, a, src(k), env.now);
    match Insert(t1.activity, Activity.SaveRow(out), ActivityKeys())
    case None => Effect(t1, k + 1, [], false)
    case Some(rows) =>
      var posts := Http.Deliver(env.crypto, out.signedBy, out.to.inbox,
                                env.encode(Activity.RawOf(followed, out)), env.now);
      Effect(t1.(activity := rows), k + 1, posts, |posts| == 1 && env.answers(posts[0]))
  }

  /**
   * `handle_follow_activity`: fetch the follower's Person, register it, store the follow,
   * look both users up, save the Accept and post it to the follower's inbox.
   */
  function FollowEffect(env: Env, src: nat -> string, t: Tables, n: nat, user: string,
                        a: FollowActivity): (r: Effect)
  {
    var gets := FetchOf(env.crypto, None, a.actor, env.now);
    match PersonAt(env.remote, a.actor)
    case None => Effect(t, n, gets, false)
    case Some(p) =>
      var w := FollowWrites(env, src, t, n, user, a, p);
      w.(sent := gets + w.sent)
  }

  /** The post row `handle_create_activity` writes: its uri is the Create activity's id. */
  function CreatedRow(a: CreateActivity, id: string, authorId: string, now: string): PostRow {
    PostRow(id, a.id, authorId, a.obj.content, now, None)
  }

  /**
   * `handle_create_activity`: a Note is required; fetch the author's Person, register it,
   * look the author up, and insert the post under a fresh id with no conflict clause.
   */
  function CreateEffect(env: Env, src: nat -> string, t: Tables, n: nat, a: CreateActivity): (r: Effect)
  {
    if a.obj.ty != "Note" then Effect(t, n, [], false)
    else
      var gets := FetchOf(env.crypto, None, a.actor, env.now);
      match PersonAt(env.remote, a.actor)
      case None => Effect(t, n, gets, false)
      case Some(p) =>
        var reg := Register(t, src, n, p, a.actor);
        if !reg.ok then Effect(reg.tables, reg.next, gets, false)
        else CreateStore(env, src, reg.tables, reg.next, a).(sent := gets)
  }

  /** Once the author is registered: look the author up and insert the post under a fresh id. */
  function CreateStore(env: Env, src: nat -> string, t1: Tables, k: nat, a: CreateActivity): (r: Effect)
  {
    match ApUser.FromActorId(t1, a.actor)
    case None => Effect(t1, k, [], false)
    case Some(author) =>
      match Insert(t1.post, CreatedRow(a, src(k), author.id, env.localNow), PostKeys())
      case None => Effect(t1, k + 1, [], false)
      case Some(rows) => Effect(t1.(post := rows), k + 1, [], true)
  }

  /** The boosted note as stored: its uri is the note's id, its author the attributed user. */
  function ReblogRow(note: Note, reblogId: string, authorId: string): PostRow {
    PostRow(reblogId, note.id, authorId, note.content, note.ts, None)
  }

  /** The boost itself: empty, owned by the booster, pointing at the stored note. */
  function BoostRow(note: Note, baseId: string, reblogId: string, boosterId: string, now: string): PostRow {
    PostRow(baseId, Db.USERS_BASE + boosterId + "/posts/" + note.id, boosterId, "", now, Some(reblogId))
  }

  /** The two plain inserts of the boost handler, the boosted note first. */
  function BoostInserts(t: Tables, note: Note, baseId: string, reblogId: string, authorId: string,
                        boosterId: string, now: string): (r: (Tables, bool))
    ensures r.0.(post := t.post) == t && t.post <= r.0.post
  {
    match Insert(t.post, ReblogRow(note, reblogId, authorId), PostKeys())
    case None => (t, false)
    case Some(rows) =>
      match Insert(rows, BoostRow(note, baseId, reblogId, boosterId, now), PostKeys())
      case None => (t.(post := rows), false)
      case Some(rows2) => (t.(post := rows2), true)
  }

  /**
   * The lookups and the inserts once both users are registered, given the two ids the
   * inserts draw; `None` is a lookup that panics before any id is drawn.
   */
  function BoostStore(t: Tables, a: BoostActivity, note: Note, attribution: string,
                      baseId: string, reblogId: string, now: string): (r: Option<(Tables, bool)>)
    ensures r.Some? ==> r.value.0.(post := t.post) == t && t.post <= r.value.0.post
  {
    match (ApUser.FromActorId(t, attribution), ApUser.FromActorId(t, a.actor))
    case (Some(attributed), Some(actorUser)) =>
      Some(BoostInserts(t, note, baseId, reblogId, attributed.id, actorUser.id, now))
    case _ => None
  }

  /** The boost handler once the note, its author's Person and the booster's Person are known. */
  function BoostWrites(env: Env, src: nat -> string, t: Tables, n: nat, a: BoostActivity,
                       note: Note, attribution: string, author: Person, booster: Person): (r: Effect)
    ensures r.sent == []
  {
    var reg := Register(t, src, n, booster, a.actor);
    if !reg.ok then Effect(reg.tables, reg.next, [], false)
    else
      var reg2 := Register(reg.tables, src, reg.next, author, attribution);
      if !reg2.ok then Effect(reg2.tables, reg2.next, [], false)
      else
        BoostTail(env, src, reg2.tables, reg2.next, a, note, attribution)
  }

  /** After both registrations: the base id and the reblog id are the next two drawn. */
  function BoostTail(env: Env, src: nat -> string, t: Tables, k: nat, a: BoostActivity, note: Note,
                     attribution: string): (r: Effect)
    ensures r.sent == []
  {
    match BoostStore(t, a, note, attribution, src(k), src(k + 1), env.newTs)
    case None => Effect(t, k, [], false)
    case Some(stored) => Effect(stored.0, k + 2, [], stored.1)
  }

  /**
   * `handle_boost_activity`: three signed fetches (the note, its author, the booster), then
   * the booster and the author are registered, and the note and the boost are stored.
   */
  function BoostEffect(env: Env, src: nat -> string, t: Tables, n: nat, a: BoostActivity): (r: Effect)
  {
    var g1 := FetchOf(env.crypto, Some(BOOST_KEY), a.obj, env.now);
    match NoteAt(env.remote, a.obj)
    case None => Effect(t, n, g1, false)
    case Some(note) =>
      match note.attributedTo
      case None => Effect(t, n, g1, false)
      case Some(attribution) =>
        var e := BoostPeople(env, src, t, n, a, note, attribution);
        e.(sent := g1 + e.sent)
  }

  /** The fetches of the author's and the booster's Person, and the writes after them. */
  function BoostPeople(env: Env, src: nat -> string, t: Tables, n: nat, a: BoostActivity, note: Note,
                       attribution: string): (r: Effect)
  {
    var g2 := FetchOf(env.crypto, Some(BOOST_KEY), attribution, env.now);
    match PersonAt(env.remote, attribution)
    case None => Effect(t, n, g2, false)
    case Some(author) =>
      var g3 := g2 + FetchOf(env.crypto, Some(BOOST_KEY), a.actor, env.now);
      match PersonAt(env.remote, a.actor)
      case None => Effect(t, n, g3, false)
      case Some(booster) =>
        var w := BoostWrites(env, src, t, n, a, note, attribution, author, booster);
        Effect(w.tables, w.next, g3, w.finished)
  }

  // ------------------------------------------------------------- dispatch

  /** The `match` on the activity type. */
  function RouteOf(ty: string): (r: Route)
    ensures r == DeleteRoute <==> ty == "Delete"
    ensures r == FollowRoute <==> ty == "Follow"
    ensures r == CreateRoute <==> ty == "Create"
    ensures r == LikeRoute <==> ty == "Like"
    ensures r == BoostRoute <==> ty == "Announce"
  {
    if ty == "Delete" then DeleteRoute
    else if ty == "Follow" then FollowRoute
    else if ty == "Create" then CreateRoute
    else if ty == "Like" then LikeRoute
    else if ty == "Announce" then BoostRoute
    else Dropped
  }

  /**
   * `inbox`: a body that is not a minimal activity panics; otherwise the route's parse of
   * the body runs (a failed parse panics) and its handler with it. Delete and Like only log
   * (Like's lookup of the post has no effect), and an unknown type is logged and dropped.
   */
  function InboxEffect(env: Env, src: nat -> string, t: Tables, n: nat, user: string, body: Body)
    : (r: Effect)
  {
    match body.kind
    case None => Effect(t, n, [], false)
    case Some(ty) =>
      match RouteOf(ty)
      case DeleteRoute => Effect(t, n, [], body.delete.Some?)
      case LikeRoute => Effect(t, n, [], body.like.Some?)
      case Dropped => Effect(t, n, [], true)
      case FollowRoute =>
        (match body.follow
         case None => Effect(t, n, [], false)
         case Some(a) => FollowEffect(env, src, t, n, user, a))
      case CreateRoute =>
        (match body.create
         case None => Effect(t, n, [], false)
         case Some(a) => CreateEffect(env, src, t, n, a))
      case BoostRoute =>
        (match body.boost
         case None => Effect(t, n, [], false)
         case Some(a) => BoostEffect(env, src, t, n, a))
  }

  // ------------------------------------------------------------- methods

  lemma Cat3<T>(a: seq<T>, b: seq<T>, c: seq<T>)
    ensures (a + b) + c == a + (b + c)
  {
  }

  method CreateActorStep(conn: Connection, p: Person, actor: string)
    modifies conn
    ensures conn.tables == CreateActor(old(conn.tables), p, actor)
  {
    var r := Make.NewActor(conn, Db.Actor(actor, p.inbox, p.outbox));
  }

  method CreateUserStep(conn: Connection, ids: Oracle.Ids, p: Person, actor: string) returns (ok: bool)
    modifies conn, ids
    ensures var r := CreateUser(old(conn.tables), ids.source, old(ids.next), p, actor);
      conn.tables == r.tables && ids.next == r.next && ok == r.ok
  {
    var host := Url.Host(actor);
    if host.None? {
      return false;
    }
    var uuid := ids.Fresh();
    var rows := InsertOrIgnore(conn.tables.user, UserRowFor(p, actor, host.value, uuid), UserActorId, UserKeys());
    if rows.None? {
      return false;
    }
    conn.tables := conn.tables.(user := rows.value);
    return true;
  }

  method RegisterStep(conn: Connection, ids: Oracle.Ids, p: Person, actor: string) returns (ok: bool)
    modifies conn, ids
    ensures var r := Register(old(conn.tables), ids.source, old(ids.next), p, actor);
      conn.tables == r.tables && ids.next == r.next && ok == r.ok
  {
    CreateActorStep(conn, p, actor);
    ok := CreateUserStep(conn, ids, p, actor);
  }

  method FollowWritesStep(conn: Connection, ids: Oracle.Ids, client: Http.HttpClient, env: Env,
                          user: string, a: FollowActivity, p: Person) returns (ok: bool)
    requires conn != ids as object && client != ids as object
    modifies conn, ids, client
    ensures var w := FollowWrites(env, ids.source, old(conn.tables), old(ids.next), user, a, p);
      && conn.tables == w.tables && ids.next == w.next
      && client.sent == old(client.sent) + w.sent && ok == w.finished
  {
    ok := RegisterStep(conn, ids, p, a.actor);
    if !ok {
      return;
    }
    conn.tables := CreateFollow(conn.tables, a);
    ok := FollowAcceptStep(conn, ids, client, env, user, a);
  }

  method FollowAcceptStep(conn: Connection, ids: Oracle.Ids, client: Http.HttpClient, env: Env,
                          user: string, a: FollowActivity) returns (ok: bool)
    requires conn != ids as object && client != ids as object
    modifies conn, ids, client
    ensures var w := FollowAccept(env, ids.source, old(conn.tables), old(ids.next), user, a);
      && conn.tables == w.tables && ids.next == w.next
      && client.sent == old(client.sent) + w.sent && ok == w.finished
  {
    var follower := ApUser.FromActorId(conn.tables, a.actor);
    var followed := ApUser.FromUsername(conn.tables, user);
    if follower.None? || followed.None? {
      return false;
    }
    ok := SendAcceptStep(conn, ids, client, env, follower.value, followed.value, a);
  }

  method SendAcceptStep(conn: Connection, ids: Oracle.Ids, client: Http.HttpClient, env: Env,
                        follower: ApUser.User, followed: ApUser.User, a: FollowActivity) returns (ok: bool)
    requires conn != ids as object && client != ids as object
    modifies conn, ids, client
    ensures var w := SendAccept(env, ids.source, old(conn.tables), old(ids.next), follower, followed, a);
      && conn.tables == w.tables && ids.next == w.next
      && client.sent == old(client.sent) + w.sent && ok == w.finished
  {
    ghost var t1 := conn.tables;
    var id := ids.Fresh();
    var out := AcceptFor(follower, followed, a, id, env.now);
    ghost var ins := Insert(t1.activity, Activity.SaveRow(out), ActivityKeys());
    OneKey(t1.activity, Activity.SaveRow(out), ActivityId);
    ok := Activity.Save(conn, out);
    if !ok {
      assert ins.None?;
      return;
    }
    assert ins == Some(t1.activity + [Activity.SaveRow(out)]);
    ghost var sent0 := client.sent;
    ghost var posts := Http.Deliver(env.crypto, out.signedBy, out.to.inbox,
                                    env.encode(Activity.RawOf(followed, out)), env.now);
    var posted;
    posted, ok := Activity.Post(client, env.crypto, env.answers, env.encode, followed, out, env.now);
    if posted.Some? {
      assert posts[0] == (sent0 + posts)[|sent0|] == posted.value;
    }
    assert SendAccept(env, ids.source, old(conn.tables), old(ids.next), follower, followed, a)
      == Effect(t1.(activity := t1.activity + [Activity.SaveRow(out)]), old(ids.next) + 1, posts,
                |posts| == 1 && env.answers(posts[0]));
  }

  method HandleFollow(conn: Connection, ids: Oracle.Ids, client: Http.HttpClient, env: Env,
                      user: string, a: FollowActivity) returns (ok: bool)
    requires conn != ids as object && client != ids as object
    modifies conn, ids, client
    ensures var e := FollowEffect(env, ids.source, old(conn.tables), old(ids.next), user, a);
      && conn.tables == e.tables && ids.next == e.next
      && client.sent == old(client.sent) + e.sent && ok == e.finished
  {
    ghost var e := FollowEffect(env, ids.source, conn.tables, ids.next, user, a);
    ghost var gets := FetchOf(env.crypto, None, a.actor, env.now);
    var fetched := Fetch(client, env.crypto, None, a.actor, env.now);
    if !fetched {
      assert e == Effect(old(conn.tables), old(ids.next), gets, false);
      return false;
    }
    var p := env.remote.person(a.actor);
    if p.None? {
      assert e == Effect(old(conn.tables), old(ids.next), gets, false);
      return false;
    }
    ghost var w := FollowWrites(env, ids.source, conn.tables, ids.next, user, a, p.value);
    assert e == w.(sent := gets + w.sent);
    ghost var sent1 := client.sent;
    assert sent1 == old(client.sent) + gets;
    ok := FollowWritesStep(conn, ids, client, env, user, a, p.value);
    assert client.sent == sent1 + w.sent;
    Cat3(old(client.sent), gets, w.sent);
  }

  method HandleCreate(conn: Connection, ids: Oracle.Ids, client: Http.HttpClient, env: Env,
                      a: CreateActivity) returns (ok: bool)
    requires conn != ids as object && client != ids as object
    modifies conn, ids, client
    ensures var e := CreateEffect(env, ids.source, old(conn.tables), old(ids.next), a);
      && conn.tables == e.tables && ids.next == e.next
      && client.sent == old(client.sent) + e.sent && ok == e.finished
  {
    if a.obj.ty != "Note" {
      return false;
    }
    var fetched := Fetch(client, env.crypto, None, a.actor, env.now);
    if !fetched {
      return false;
    }
    var p := env.remote.person(a.actor);
    if p.None? {
      return false;
    }
    ok := RegisterStep(conn, ids, p.value, a.actor);
    if !ok {
      return;
    }
    ok := CreateStoreStep(conn, ids, env, a);
  }

  method CreateStoreStep(conn: Connection, ids: Oracle.Ids, env: Env, a: CreateActivity) returns (ok: bool)
    requires conn != ids as object
    modifies conn, ids
    ensures var e := CreateStore(env, ids.source, old(conn.tables), old(ids.next), a);
      && conn.tables == e.tables && ids.next == e.next && ok == e.finished
  {
    var author := ApUser.FromActorId(conn.tables, a.actor);
    if author.None? {
      return false;
    }
    var postId := ids.Fresh();
    var rows := Insert(conn.tables.post, CreatedRow(a, postId, author.value.id, env.localNow), PostKeys());
    if rows.None? {
      return false;
    }
    conn.tables := conn.tables.(post := rows.value);
    return true;
  }

  method BoostTailStep(conn: Connection, ids: Oracle.Ids, env: Env, a: BoostActivity, note: Note,
                       attribution: string) returns (ok: bool)
    requires conn != ids as object
    modifies conn, ids
    ensures var r := BoostTail(env, ids.source, old(conn.tables), old(ids.next), a, note, attribution);
      conn.tables == r.tables && ids.next == r.next && ok == r.finished
  {
    var now := env.newTs;
    var attributed := ApUser.FromActorId(conn.tables, attribution);
    var actorUser := ApUser.FromActorId(conn.tables, a.actor);
    if attributed.None? || actorUser.None? {
      return false;
    }
    var baseId := ids.Fresh();
    var reblogId := ids.Fresh();
    var rows := Insert(conn.tables.post, ReblogRow(note, reblogId, attributed.value.id), PostKeys());
    if rows.None? {
      return false;
    }
    conn.tables := conn.tables.(post := rows.value);
    rows := Insert(conn.tables.post, BoostRow(note, baseId, reblogId, actorUser.value.id, now), PostKeys());
    if rows.None? {
      return false;
    }
    conn.tables := conn.tables.(post := rows.value);
    return true;
  }

  method BoostWritesStep(conn: Connection, ids: Oracle.Ids, env: Env, a: BoostActivity, note: Note,
                         attribution: string, author: Person, booster: Person) returns (ok: bool)
    requires conn != ids as object
    modifies conn, ids
    ensures var w := BoostWrites(env, ids.source, old(conn.tables), old(ids.next), a, note, attribution, author, booster);
      conn.tables == w.tables && ids.next == w.next && ok == w.finished
  {
    ok := RegisterStep(conn, ids, booster, a.actor);
    if !ok {
      return;
    }
    ok := RegisterStep(conn, ids, author, attribution);
    if !ok {
      return;
    }
    ok := BoostTailStep(conn, ids, env, a, note, attribution);
  }

  method BoostPeopleStep(conn: Connection, ids: Oracle.Ids, client: Http.HttpClient, env: Env,
                         a: BoostActivity, note: Note, attribution: string) returns (ok: bool)
    requires conn != ids as object && client != ids as object
    modifies conn, ids, client
    ensures var e := BoostPeople(env, ids.source, old(conn.tables), old(ids.next), a, note, attribution);
      && conn.tables == e.tables && ids.next == e.next
      && client.sent == old(client.sent) + e.sent && ok == e.finished
  {
    ghost var s0 := client.sent;
    ghost var g2 := FetchOf(env.crypto, Some(BOOST_KEY), attribution, env.now);
    var fetched := Fetch(client, env.crypto, Some(BOOST_KEY), attribution, env.now);
    var author := if fetched then env.remote.person(attribution) else None;
    if author.None? {
      return false;
    }
    ghost var f3 := FetchOf(env.crypto, Some(BOOST_KEY), a.actor, env.now);
    fetched := Fetch(client, env.crypto, Some(BOOST_KEY), a.actor, env.now);
    assert client.sent == s0 + (g2 + f3) by { Cat3(s0, g2, f3); }
    var booster := if fetched then env.remote.person(a.actor) else None;
    if booster.None? {
      return false;
    }
    ok := BoostWritesStep(conn, ids, env, a, note, attribution, author.value, booster.value);
  }

  method HandleBoost(conn: Connection, ids: Oracle.Ids, client: Http.HttpClient, env: Env,
                     a: BoostActivity) returns (ok: bool)
    requires conn != ids as object && client != ids as object
    modifies conn, ids, client
    ensures var e := BoostEffect(env, ids.source, old(conn.tables), old(ids.next), a);
      && conn.tables == e.tables && ids.next == e.next
      && client.sent == old(client.sent) + e.sent && ok == e.finished
  {
    ghost var s0 := client.sent;
    ghost var g1 := FetchOf(env.crypto, Some(BOOST_KEY), a.obj, env.now);
    var fetched := Fetch(client, env.crypto, Some(BOOST_KEY), a.obj, env.now);
    var note := if fetched then env.remote.note(a.obj) else None;
    if note.None? || note.value.attributedTo.None? {
      return false;
    }
    ghost var s1 := client.sent;
    ghost var e := BoostPeople(env, ids.source, conn.tables, ids.next, a, note.value, note.value.attributedTo.value);
    ok := BoostPeopleStep(conn, ids, client, env, a, note.value, note.value.attributedTo.value);
    Cat3(s0, g1, e.sent);
  }

  /** The endpoint: parse, dispatch on the type, run the handler. */
  method Inbox(conn: Connection, ids: Oracle.Ids, client: Http.HttpClient, env: Env,
               user: string, body: Body) returns (ok: bool)
    requires conn != ids as object && client != ids as object
    modifies conn, ids, client
    ensures var e := InboxEffect(env, ids.source, old(conn.tables), old(ids.next), user, body);
      && conn.tables == e.tables && ids.next == e.next
      && client.sent == old(client.sent) + e.sent && ok == e.finished
  {
    if body.kind.None? {
      return false;
    }
    var route := RouteOf(body.kind.value);
    match route {
      case DeleteRoute => ok := body.delete.Some?;
      case LikeRoute => ok := body.like.Some?;
      case Dropped => ok := true;
      case FollowRoute =>
        if body.follow.None? {
          return false;
        }
        ok := HandleFollow(conn, ids, client, env, user, body.follow.value);
      case CreateRoute =>
        if body.create.None? {
          return false;
        }
        ok := HandleCreate(conn, ids, client, env, body.create.value);
      case BoostRoute =>
        if body.boost.None? {
          return false;
        }
        ok := HandleBoost(conn, ids, client, env, body.boost.value);
    }
  }

  // ------------------------------------------------------------- properties

  /** Registering a Person keeps the store's keys unique and writes only actors and users. */
  lemma RegisterKeepsValid(t: Tables, src: nat -> string, n: nat, p: Person, actor: string)
    requires Valid(t)
    ensures var r := Register(t, src, n, p, actor);
      Valid(r.tables) && r.tables.(actor := t.actor, user := t.user) == t
  {
    var a := Db.Actor(actor, p.inbox, p.outbox);
    Make.NewActorKeepsValid(t, a);
    var t1 := CreateActor(t, p, actor);
    if Url.Host(actor).Some? {
      var row := UserRowFor(p, actor, Url.Host(actor).value, src(n));
      if InsertOrIgnore(t1.user, row, UserActorId, UserKeys()).Some? {
        InsertOrIgnoreKeepsUnique(t1.user, row, UserActorId, UserKeys());
      }
    }
  }

  /**
   * The two rows a finished boost adds: the boosted note with its own id as uri, then the
   * empty boost whose uri names the booster and the note and whose `boosted_post_id` is
   * the note's row.
   */
  predicate BoostedPair(before: seq<PostRow>, after: seq<PostRow>, note: Note, now: string) {
    && |after| == |before| + 2 && before <= after
    && after[|before|].uri == note.id && after[|before|].content == note.content
    && after[|before|].createdAt == note.ts && after[|before|].boostedPostId.None?
    && after[|before| + 1].boostedPostId == Some(after[|before|].id)
    && after[|before| + 1].content == "" && after[|before| + 1].createdAt == now
    && after[|before| + 1].uri == Db.USERS_BASE + after[|before| + 1].userId + "/posts/" + note.id
  }

  /**
   * The boost's inserts: both rows or a panic after at most the note's row; a note whose
   * uri is already stored panics at once; the keys stay unique.
   */
  lemma BoostInsertsRows(t: Tables, note: Note, baseId: string, reblogId: string, authorId: string,
                         boosterId: string, now: string)
    ensures var r := BoostInserts(t, note, baseId, reblogId, authorId, boosterId, now);
      && (r.1 ==> BoostedPair(t.post, r.0.post, note, now)
                  && r.0.post[|t.post|].userId == authorId && r.0.post[|t.post| + 1].userId == boosterId)
      && (!r.1 ==> r.0.post == t.post || r.0.post == t.post + [ReblogRow(note, reblogId, authorId)])
      && (Taken(t.post, PostUri, note.id) ==> !r.1 && r.0 == t)
      && (Valid(t) ==> Valid(r.0))
  {
    var reblog := ReblogRow(note, reblogId, authorId);
    var boost := BoostRow(note, baseId, reblogId, boosterId, now);
    TwoKeys(t.post, reblog, PostId, PostUri);
    var first := Insert(t.post, reblog, PostKeys());
    if first.Some? {
      if Valid(t) {
        InsertKeepsUnique(t.post, reblog, PostKeys());
        if Insert(first.value, boost, PostKeys()).Some? {
          InsertKeepsUnique(first.value, boost, PostKeys());
        }
      }
    }
  }

  /**
   * Where the boost handler's writes end: before the inserts (nothing in `post` changed and
   * a panic), or at the inserts over tables whose posts are the original ones.
   */
  lemma BoostUnfold(env: Env, src: nat -> string, t: Tables, n: nat, a: BoostActivity)
    returns (reached: bool, t2: Tables, baseId: string, reblogId: string, authorId: string, boosterId: string)
    ensures var e := BoostEffect(env, src, t, n, a);
      && (!reached ==> !e.finished && e.tables.post == t.post && (Valid(t) ==> Valid(e.tables)))
      && (reached ==>
           && NoteAt(env.remote, a.obj).Some? && t2.post == t.post && (Valid(t) ==> Valid(t2))
           && var ins := BoostInserts(t2, NoteAt(env.remote, a.obj).value, baseId, reblogId, authorId, boosterId, env.newTs);
              e.tables == ins.0 && e.finished == ins.1)
  {
    reached, t2, baseId, reblogId, authorId, boosterId := false, t, "", "", "", "";
    var note := NoteAt(env.remote, a.obj);
    if note.None? || note.value.attributedTo.None? ||
       PersonAt(env.remote, note.value.attributedTo.value).None? || PersonAt(env.remote, a.actor).None? {
      BoostEarly(env, src, t, n, a);
      return;
    }
    var attribution := note.value.attributedTo.value;
    var author := PersonAt(env.remote, attribution);
    var booster := PersonAt(env.remote, a.actor);
    BoostLate(env, src, t, n, a);
    var k;
    reached, t2, k := BoostWritesUnfold(env, src, t, n, a, note.value, attribution, author.value, booster.value);
    if reached {
      BoostTailInserts(env, src, t2, k, a, note.value, attribution);
      baseId, reblogId := src(k), src(k + 1);
      authorId := ApUser.FromActorId(t2, attribution).value.id;
      boosterId := ApUser.FromActorId(t2, a.actor).value.id;
    }
  }

  /** A note, an author or a booster that cannot be fetched leaves the tables as they were. */
  lemma BoostEarly(env: Env, src: nat -> string, t: Tables, n: nat, a: BoostActivity)
    requires var note := NoteAt(env.remote, a.obj);
      note.None? || note.value.attributedTo.None? ||
      PersonAt(env.remote, note.value.attributedTo.value).None? || PersonAt(env.remote, a.actor).None?
    ensures var e := BoostEffect(env, src, t, n, a);
      e.tables == t && !e.finished
  {
  }

  /** Once the note and both Persons are fetched, the boost handler's writes are `BoostWrites`. */
  lemma BoostLate(env: Env, src: nat -> string, t: Tables, n: nat, a: BoostActivity)
    requires var note := NoteAt(env.remote, a.obj);
      && note.Some? && note.value.attributedTo.Some?
      && PersonAt(env.remote, note.value.attributedTo.value).Some? && PersonAt(env.remote, a.actor).Some?
    ensures var note := NoteAt(env.remote, a.obj).value;
      var attribution := note.attributedTo.value;
      var e := BoostEffect(env, src, t, n, a);
      var w := BoostWrites(env, src, t, n, a, note, attribution, PersonAt(env.remote, attribution).value,
                           PersonAt(env.remote, a.actor).value);
      e.tables == w.tables && e.finished == w.finished
  {
  }

  /** `BoostUnfold` once the note and both Persons are known. */
  lemma BoostWritesUnfold(env: Env, src: nat -> string, t: Tables, n: nat, a: BoostActivity,
                          note: Note, attribution: string, author: Person, booster: Person)
    returns (reached: bool, t2: Tables, k: nat)
    ensures var e := BoostWrites(env, src, t, n, a, note, attribution, author, booster);
      && (!reached ==> !e.finished && e.tables.post == t.post && (Valid(t) ==> Valid(e.tables)))
      && (reached ==>
           && t2.post == t.post && (Valid(t) ==> Valid(t2))
           && ApUser.FromActorId(t2, attribution).Some? && ApUser.FromActorId(t2, a.actor).Some?
           && e == BoostTail(env, src, t2, k, a, note, attribution))
  {
    reached, t2, k := false, t, 0;
    var reg := Register(t, src, n, booster, a.actor);
    if Valid(t) {
      RegisterKeepsValid(t, src, n, booster, a.actor);
    }
    if !reg.ok {
      return;
    }
    var reg2 := Register(reg.tables, src, reg.next, author, attribution);
    if Valid(t) {
      RegisterKeepsValid(reg.tables, src, reg.next, author, attribution);
    }
    if !reg2.ok {
      return;
    }
    var attributed := ApUser.FromActorId(reg2.tables, attribution);
    var actorUser := ApUser.FromActorId(reg2.tables, a.actor);
    if attributed.None? || actorUser.None? {
      return;
    }
    reached, t2, k := true, reg2.tables, reg2.next;
  }

  /** Once both users are found, the tail is the two inserts under the next two ids. */
  lemma BoostTailInserts(env: Env, src: nat -> string, t: Tables, k: nat, a: BoostActivity, note: Note,
                         attribution: string)
    requires ApUser.FromActorId(t, attribution).Some? && ApUser.FromActorId(t, a.actor).Some?
    ensures var e := BoostTail(env, src, t, k, a, note, attribution);
      var ins := BoostInserts(t, note, src(k), src(k + 1), ApUser.FromActorId(t, attribution).value.id,
                              ApUser.FromActorId(t, a.actor).value.id, env.newTs);
      e.tables == ins.0 && e.finished == ins.1
  {
  }

  /**
   * A finished Announce stores the boosted note (uri = the note's id) and then the boost,
   * which points at the note's row.
   */
  lemma BoostStoresPair(env: Env, src: nat -> string, t: Tables, n: nat, a: BoostActivity)
    requires BoostEffect(env, src, t, n, a).finished
    ensures NoteAt(env.remote, a.obj).Some?
    ensures BoostedPair(t.post, BoostEffect(env, src, t, n, a).tables.post, NoteAt(env.remote, a.obj).value, env.newTs)
  {
    var reached, t2, baseId, reblogId, authorId, boosterId := BoostUnfold(env, src, t, n, a);
    BoostInsertsRows(t2, NoteAt(env.remote, a.obj).value, baseId, reblogId, authorId, boosterId, env.newTs);
  }

  /** Every boost on file still refers to a stored post after the Announce handler, whether or not it finished. */
  lemma BoostKeepsResolved(env: Env, src: nat -> string, t: Tables, n: nat, a: BoostActivity)
    requires BoostsResolve(t.post)
    ensures BoostsResolve(BoostEffect(env, src, t, n, a).tables.post)
  {
    var reached, t2, baseId, reblogId, authorId, boosterId := BoostUnfold(env, src, t, n, a);
    if reached {
      BoostInsertsResolve(t2, NoteAt(env.remote, a.obj).value, baseId, reblogId, authorId, boosterId, env.newTs);
    }
  }

  /** The boost row the inserts add points at the note row inserted just before it. */
  lemma BoostInsertsResolve(t: Tables, note: Note, baseId: string, reblogId: string, authorId: string,
                            boosterId: string, now: string)
    requires BoostsResolve(t.post)
    ensures BoostsResolve(BoostInserts(t, note, baseId, reblogId, authorId, boosterId, now).0.post)
  {
    var reblog := ReblogRow(note, reblogId, authorId);
    var first := Insert(t.post, reblog, PostKeys());
    if first.Some? {
      AppendResolves(t.post, reblog);
      var boost := BoostRow(note, baseId, reblogId, boosterId, now);
      if Insert(first.value, boost, PostKeys()).Some? {
        assert Taken(first.value, PostId, reblogId) by {
          assert PostId(first.value[|t.post|]) == reblogId;
        }
        AppendResolves(first.value, boost);
      }
    }
  }

  /**
   * Delivering the same Announce again, its note now on file, panics at the note's insert
   * and adds no post: there is no conflict clause on either insert.
   */
  lemma BoostRedeliveryPanics(env: Env, src: nat -> string, t: Tables, n: nat, a: BoostActivity)
    requires NoteAt(env.remote, a.obj).Some? && Taken(t.post, PostUri, NoteAt(env.remote, a.obj).value.id)
    ensures !BoostEffect(env, src, t, n, a).finished
    ensures BoostEffect(env, src, t, n, a).tables.post == t.post
  {
    var reached, t2, baseId, reblogId, authorId, boosterId := BoostUnfold(env, src, t, n, a);
    if reached {
      BoostInsertsRows(t2, NoteAt(env.remote, a.obj).value, baseId, reblogId, authorId, boosterId, env.newTs);
    }
  }

  /**
   * The Accept for a Follow: its object is the Follow's id, its row is stored as an
   * "Accept" aimed at the follower, and it is signed with the key id built from the
   * followed user's username, which names another key than the user's own id does.
   */
  lemma AcceptForFacts(follower: ApUser.User, followed: ApUser.User, a: FollowActivity, id: string,
                       now: Time.Instant)
    ensures var out := AcceptFor(follower, followed, a, id, now);
      var raw := Activity.RawOf(followed, out);
      && raw.payload == a.id && raw.ty == "Accept" && raw.actor == followed.actor.id
      && raw.id == Db.ACTIVITIES_BASE + id
      && Activity.SaveRow(out) == ActivityRow(Db.ACTIVITIES_BASE + id, "Accept", follower.actor.id)
      && out.to == follower.actor && out.req.published == now
      && out.signedBy == Db.KeyIdFor(followed.username)
      && (followed.username != followed.id ==> out.signedBy != Db.KeyIdFor(followed.id))
  {
    var out := AcceptFor(follower, followed, a, id, now);
    assert out.signedBy == Db.KeyIdFor(followed.username);
    if followed.username != followed.id && out.signedBy == Db.KeyIdFor(followed.id) {
      Db.KeyIdForInjective(followed.username, followed.id);
    }
  }

  /**
   * Where the Follow handler's writes end: before the Accept is saved (a panic), or at the
   * save, over tables where the follow has been recorded and both users are found.
   */
  lemma FollowUnfold(env: Env, src: nat -> string, t: Tables, n: nat, user: string, a: FollowActivity)
    returns (reached: bool, t1: Tables, follower: ApUser.User, followed: ApUser.User)
    ensures var e := FollowEffect(env, src, t, n, user, a);
      && (!reached ==> !e.finished && e.tables.post == t.post && (Valid(t) ==> Valid(e.tables)))
      && (reached ==>
           && Http.IntoUrl(a.actor).Some? && t1.post == t.post && t1.activity == t.activity
           && (Valid(t) ==> Valid(t1))
           && (Taken(t.follow, FollowId, a.id) ==> t1.follow == t.follow)
           && (!Taken(t.follow, FollowId, a.id) ==> t1.follow == t.follow + [FollowRow(a.id, a.actor, a.obj)])
           && ApUser.FromActorId(t1, a.actor) == Some(follower)
           && ApUser.FromUsername(t1, user) == Some(followed)
           && var out := AcceptFor(follower, followed, a, src(n + 1), env.now);
              var ins := Insert(t1.activity, Activity.SaveRow(out), ActivityKeys());
              var posts := Http.Deliver(env.crypto, out.signedBy, out.to.inbox,
                                        env.encode(Activity.RawOf(followed, out)), env.now);
              && e.next == n + 2
              && (ins.None? ==> !e.finished && e.tables == t1)
              && (ins.Some? ==> e.tables == t1.(activity := ins.value) && e.finished == (|posts| == 1 && env.answers(posts[0]))
                                && e.sent == FetchOf(env.crypto, None, a.actor, env.now) + posts))
  {
    var anyone := ApUser.User("", "", ApUser.Actor("", "", ""), "");
    reached, t1, follower, followed := false, t, anyone, anyone;
    var p := PersonAt(env.remote, a.actor);
    if p.None? {
      return;
    }
    var w := FollowWrites(env, src, t, n, user, a, p.value);
    assert FollowEffect(env, src, t, n, user, a) == w.(sent := FetchOf(env.crypto, None, a.actor, env.now) + w.sent);
    reached, t1, follower, followed := FollowWritesUnfold(env, src, t, n, user, a, p.value);
  }

  /** `FollowUnfold` once the follower's Person is known. */
  lemma FollowWritesUnfold(env: Env, src: nat -> string, t: Tables, n: nat, user: string, a: FollowActivity,
                           p: Person)
    returns (reached: bool, t1: Tables, follower: ApUser.User, followed: ApUser.User)
    ensures var w := FollowWrites(env, src, t, n, user, a, p);
      && (!reached ==> !w.finished && w.tables.post == t.post && (Valid(t) ==> Valid(w.tables)))
      && (reached ==>
           && Http.IntoUrl(a.actor).Some? && t1.post == t.post && t1.activity == t.activity
           && (Valid(t) ==> Valid(t1))
           && (Taken(t.follow, FollowId, a.id) ==> t1.follow == t.follow)
           && (!Taken(t.follow, FollowId, a.id) ==> t1.follow == t.follow + [FollowRow(a.id, a.actor, a.obj)])
           && ApUser.FromActorId(t1, a.actor) == Some(follower)
           && ApUser.FromUsername(t1, user) == Some(followed)
           && w == SendAccept(env, src, t1, n + 1, follower, followed, a))
  {
    var anyone := ApUser.User("", "", ApUser.Actor("", "", ""), "");
    reached, t1, follower, followed := false, t, anyone, anyone;
    var reg := Register(t, src, n, p, a.actor);
    if Valid(t) {
      RegisterKeepsValid(t, src, n, p, a.actor);
    }
    if !reg.ok {
      return;
    }
    RegisterFollow(t, src, n, p, a);
    t1 := CreateFollow(reg.tables, a);
    reached, follower, followed := FollowAcceptUnfold(env, src, t1, n + 1, user, a);
  }

  /** Registering the follower under the first id and storing the follow touch neither posts nor activities. */
  lemma RegisterFollow(t: Tables, src: nat -> string, n: nat, p: Person, a: FollowActivity)
    requires Register(t, src, n, p, a.actor).ok
    ensures var reg := Register(t, src, n, p, a.actor);
      var t1 := CreateFollow(reg.tables, a);
      && reg.next == n + 1 && Http.IntoUrl(a.actor).Some? && t1.post == t.post && t1.activity == t.activity
      && (Valid(t) ==> Valid(t1))
      && (Taken(t.follow, FollowId, a.id) ==> t1.follow == t.follow)
      && (!Taken(t.follow, FollowId, a.id) ==> t1.follow == t.follow + [FollowRow(a.id, a.actor, a.obj)])
  {
    var reg := Register(t, src, n, p, a.actor);
    if Valid(t) {
      RegisterKeepsValid(t, src, n, p, a.actor);
      var row := FollowRow(a.id, a.actor, a.obj);
      OneKey(reg.tables.follow, row, FollowId);
      InsertOrIgnoreKeepsUnique(reg.tables.follow, row, FollowId, FollowKeys());
    }
  }

  /** The accept step either stops at a lookup, changing nothing, or sends the Accept. */
  lemma FollowAcceptUnfold(env: Env, src: nat -> string, t1: Tables, k: nat, user: string, a: FollowActivity)
    returns (reached: bool, follower: ApUser.User, followed: ApUser.User)
    ensures var w := FollowAccept(env, src, t1, k, user, a);
      && (!reached ==> !w.finished && w.tables == t1)
      && (reached ==>
           && ApUser.FromActorId(t1, a.actor) == Some(follower)
           && ApUser.FromUsername(t1, user) == Some(followed)
           && w == SendAccept(env, src, t1, k, follower, followed, a))
  {
    var anyone := ApUser.User("", "", ApUser.Actor("", "", ""), "");
    reached, follower, followed := false, anyone, anyone;
    var fr := ApUser.FromActorId(t1, a.actor);
    var fd := ApUser.FromUsername(t1, user);
    if fr.Some? && fd.Some? {
      reached, follower, followed := true, fr.value, fd.value;
    }
  }

  /**
   * A finished Follow writes one follow row for the activity's own id (unless already
   * stored) and one "Accept" activity row aimed at the follower, and no post.
   */
  lemma FollowRecords(env: Env, src: nat -> string, t: Tables, n: nat, user: string, a: FollowActivity)
    requires FollowEffect(env, src, t, n, user, a).finished
    ensures var e := FollowEffect(env, src, t, n, user, a);
      && e.next == n + 2 && e.tables.post == t.post
      && Taken(e.tables.follow, FollowId, a.id)
      && (!Taken(t.follow, FollowId, a.id) ==> e.tables.follow == t.follow + [FollowRow(a.id, a.actor, a.obj)])
      && e.tables.activity == t.activity + [ActivityRow(Db.ACTIVITIES_BASE + src(n + 1), "Accept", a.actor)]
  {
    var reached, t1, follower, followed := FollowUnfold(env, src, t, n, user, a);
    ApUser.LookupsMatch(t1, "", user, a.actor);
    AcceptForFacts(follower, followed, a, src(n + 1), env.now);
    var row := Activity.SaveRow(AcceptFor(follower, followed, a, src(n + 1), env.now));
    OneKey(t1.activity, row, ActivityId);
    if !Taken(t.follow, FollowId, a.id) {
      assert FollowId(t1.follow[|t.follow|]) == a.id;
    }
  }

  /**
   * What a finished Follow puts on the wire: the unsigned fetch of the follower, then one
   * POST of the Accept to the follower's inbox, signed, whose digest matches its body.
   */
  lemma FollowPostsAccept(env: Env, src: nat -> string, t: Tables, n: nat, user: string, a: FollowActivity)
    returns (follower: ApUser.User, followed: ApUser.User)
    requires FollowEffect(env, src, t, n, user, a).finished
    ensures var e := FollowEffect(env, src, t, n, user, a);
      var out := AcceptFor(follower, followed, a, src(n + 1), env.now);
      && follower.actor.id == a.actor && followed.username == user
      && |e.sent| == 2 && e.sent[0] == FetchOf(env.crypto, None, a.actor, env.now)[0]
      && Http.IntoUrl(follower.actor.inbox).Some?
      && e.sent[1].verb == Http.Post && e.sent[1].url == Http.IntoUrl(follower.actor.inbox).value
      && e.sent[1].payload == Some(env.encode(Activity.RawOf(followed, out)))
      && Http.DigestMatches(env.crypto, e.sent[1])
  {
    FollowFinishedAccept(env, src, t, n, user, a);
    var reg := Register(t, src, n, PersonAt(env.remote, a.actor).value, a.actor);
    var t1 := CreateFollow(reg.tables, a);
    follower, followed := FollowAcceptPosts(env, src, t1, n + 1, user, a);
    SentPair(FetchOf(env.crypto, None, a.actor, env.now), FollowAccept(env, src, t1, n + 1, user, a).sent);
  }

  /** A finished Follow fetched the Person, registered it under the first id, and finished the accept step. */
  lemma FollowFinishedAccept(env: Env, src: nat -> string, t: Tables, n: nat, user: string, a: FollowActivity)
    requires FollowEffect(env, src, t, n, user, a).finished
    ensures PersonAt(env.remote, a.actor).Some?
    ensures var reg := Register(t, src, n, PersonAt(env.remote, a.actor).value, a.actor);
      var w := FollowAccept(env, src, CreateFollow(reg.tables, a), n + 1, user, a);
      && reg.ok && reg.next == n + 1 && w.finished
      && FollowEffect(env, src, t, n, user, a).sent == FetchOf(env.crypto, None, a.actor, env.now) + w.sent
  {
    var p := PersonAt(env.remote, a.actor).value;
    var reg := Register(t, src, n, p, a.actor);
    assert reg.ok && reg.next == n + 1;
    var w := FollowAccept(env, src, CreateFollow(reg.tables, a), reg.next, user, a);
    assert FollowWrites(env, src, t, n, user, a, p) == w;
  }

  lemma SentPair(gets: seq<Http.Request>, posts: seq<Http.Request>)
    requires |gets| == 1 && |posts| == 1
    ensures var s := gets + posts; |s| == 2 && s[0] == gets[0] && s[1] == posts[0]
  {
  }

  /** A finished accept step posts exactly the Accept, signed, its digest matching, and it was answered. */
  lemma FollowAcceptPosts(env: Env, src: nat -> string, t1: Tables, k: nat, user: string, a: FollowActivity)
    returns (follower: ApUser.User, followed: ApUser.User)
    requires FollowAccept(env, src, t1, k, user, a).finished
    ensures var w := FollowAccept(env, src, t1, k, user, a);
      var out := AcceptFor(follower, followed, a, src(k), env.now);
      && follower.actor.id == a.actor && followed.username == user
      && |w.sent| == 1 && Http.IntoUrl(follower.actor.inbox).Some?
      && w.sent[0].verb == Http.Post && w.sent[0].url == Http.IntoUrl(follower.actor.inbox).value
      && w.sent[0].payload == Some(env.encode(Activity.RawOf(followed, out)))
      && Http.DigestMatches(env.crypto, w.sent[0]) && env.answers(w.sent[0])
  {
    follower := ApUser.FromActorId(t1, a.actor).value;
    followed := ApUser.FromUsername(t1, user).value;
    ApUser.LookupsMatch(t1, "", user, a.actor);
    var out := AcceptFor(follower, followed, a, src(k), env.now);
    Http.DeliverSigned(env.crypto, out.signedBy, out.to.inbox, env.encode(Activity.RawOf(followed, out)), env.now);
  }

  /**
   * A finished Create stores one post under the second id drawn (the first went to the
   * user): its uri is the Create's id, its author the user stored for the actor, its
   * content the Note's, its time the server's clock, and it boosts nothing.
   */
  lemma CreateStoresPost(env: Env, src: nat -> string, t: Tables, n: nat, a: CreateActivity)
    requires CreateEffect(env, src, t, n, a).finished
    ensures var e := CreateEffect(env, src, t, n, a);
      && a.obj.ty == "Note" && e.next == n + 2
      && |e.tables.post| == |t.post| + 1 && t.post <= e.tables.post
      && var row := e.tables.post[|t.post|];
         && row.id == src(n + 1) && row.uri == a.id && row.content == a.obj.content
         && row.createdAt == env.localNow && row.boostedPostId.None?
         && exists i :: 0 <= i < |e.tables.user| && e.tables.user[i].actorId == a.actor && e.tables.user[i].id == row.userId
  {
    var p := PersonAt(env.remote, a.actor).value;
    var reg := Register(t, src, n, p, a.actor);
    var author := ApUser.FromActorId(reg.tables, a.actor).value;
    var row := CreatedRow(a, src(reg.next), author.id, env.localNow);
    var e := CreateEffect(env, src, t, n, a);
    assert e.tables == reg.tables.(post := reg.tables.post + [row]);
    assert reg.tables.post == t.post;
    assert e.tables.post[|t.post|] == row;
  }

  /** A Create whose id is already a stored post's uri panics and adds no post. */
  lemma CreateKnownUriPanics(env: Env, src: nat -> string, t: Tables, n: nat, a: CreateActivity)
    requires Taken(t.post, PostUri, a.id)
    ensures !CreateEffect(env, src, t, n, a).finished
    ensures CreateEffect(env, src, t, n, a).tables.post == t.post
  {
    var p := PersonAt(env.remote, a.actor);
    if a.obj.ty == "Note" && p.Some? {
      var reg := Register(t, src, n, p.value, a.actor);
      var author := ApUser.FromActorId(reg.tables, a.actor);
      if reg.ok && author.Some? {
        TwoKeys(reg.tables.post, CreatedRow(a, src(reg.next), author.value.id, env.localNow), PostId, PostUri);
      }
    }
  }

  lemma CreateKeepsValid(env: Env, src: nat -> string, t: Tables, n: nat, a: CreateActivity)
    requires Valid(t)
    ensures Valid(CreateEffect(env, src, t, n, a).tables)
  {
    var p := PersonAt(env.remote, a.actor);
    if a.obj.ty == "Note" && p.Some? {
      var reg := Register(t, src, n, p.value, a.actor);
      RegisterKeepsValid(t, src, n, p.value, a.actor);
      var author := ApUser.FromActorId(reg.tables, a.actor);
      if reg.ok && author.Some? {
        var row := CreatedRow(a, src(reg.next), author.value.id, env.localNow);
        if Insert(reg.tables.post, row, PostKeys()).Some? {
          InsertKeepsUnique(reg.tables.post, row, PostKeys());
        }
      }
    }
  }

  /** A Create's only post is one that boosts nothing, so every stored boost still resolves. */
  lemma CreateKeepsResolved(env: Env, src: nat -> string, t: Tables, n: nat, a: CreateActivity)
    requires BoostsResolve(t.post)
    ensures BoostsResolve(CreateEffect(env, src, t, n, a).tables.post)
  {
    var p := PersonAt(env.remote, a.actor);
    if a.obj.ty == "Note" && p.Some? {
      var reg := Register(t, src, n, p.value, a.actor);
      var author := ApUser.FromActorId(reg.tables, a.actor);
      if reg.ok && author.Some? {
        var row := CreatedRow(a, src(reg.next), author.value.id, env.localNow);
        AppendResolves(t.post, row);
      }
    }
  }

  /** The Follow handler keeps every key unique and never touches the posts. */
  lemma FollowKeepsValid(env: Env, src: nat -> string, t: Tables, n: nat, user: string, a: FollowActivity)
    requires Valid(t)
    ensures Valid(FollowEffect(env, src, t, n, user, a).tables)
    ensures FollowEffect(env, src, t, n, user, a).tables.post == t.post
  {
    var reached, t1, follower, followed := FollowUnfold(env, src, t, n, user, a);
    if reached {
      var row := Activity.SaveRow(AcceptFor(follower, followed, a, src(n + 1), env.now));
      if Insert(t1.activity, row, ActivityKeys()).Some? {
        InsertKeepsUnique(t1.activity, row, ActivityKeys());
      }
    }
  }

  /** The Announce handler keeps every key unique, whether or not it finishes. */
  lemma BoostKeepsValid(env: Env, src: nat -> string, t: Tables, n: nat, a: BoostActivity)
    requires Valid(t)
    ensures Valid(BoostEffect(env, src, t, n, a).tables)
  {
    var reached, t2, baseId, reblogId, authorId, boosterId := BoostUnfold(env, src, t, n, a);
    if reached {
      BoostInsertsRows(t2, NoteAt(env.remote, a.obj).value, baseId, reblogId, authorId, boosterId, env.newTs);
    }
  }

  /**
   * The dispatch of `inbox`: a body without a type panics and a Delete, a Like or an
   * unknown type changes nothing and sends nothing (Delete and Like still panic when
   * their own parse fails); Follow, Create and Announce run their handler once parsed.
   */
  lemma InboxDispatch(env: Env, src: nat -> string, t: Tables, n: nat, user: string, body: Body)
    ensures var e := InboxEffect(env, src, t, n, user, body);
      && (body.kind.None? ==> e == Effect(t, n, [], false))
      && (body.kind.Some? && body.kind.value !in {"Follow", "Create", "Announce"} ==>
            && e.tables == t && e.next == n && e.sent == []
            && (e.finished <==> (body.kind.value == "Delete" ==> body.delete.Some?)
                                && (body.kind.value == "Like" ==> body.like.Some?)))
      && (body.kind == Some("Follow") ==>
            e == if body.follow.None? then Effect(t, n, [], false)
                 else FollowEffect(env, src, t, n, user, body.follow.value))
      && (body.kind == Some("Create") ==>
            e == if body.create.None? then Effect(t, n, [], false)
                 else CreateEffect(env, src, t, n, body.create.value))
      && (body.kind == Some("Announce") ==>
            e == if body.boost.None? then Effect(t, n, [], false)
                 else BoostEffect(env, src, t, n, body.boost.value))
  {
    if body.kind.Some? {
      var r := RouteOf(body.kind.value);
    }
  }

  /**
   * Whatever body arrives, `inbox` keeps every key of the store unique and every stored
   * boost pointing at a stored post.
   */
  lemma InboxKeepsInvariants(env: Env, src: nat -> string, t: Tables, n: nat, user: string, body: Body)
    requires Valid(t) && BoostsResolve(t.post)
    ensures Valid(InboxEffect(env, src, t, n, user, body).tables)
    ensures BoostsResolve(InboxEffect(env, src, t, n, user, body).tables.post)
  {
    InboxDispatch(env, src, t, n, user, body);
    if body.kind == Some("Follow") && body.follow.Some? {
      FollowKeepsValid(env, src, t, n, user, body.follow.value);
    } else if body.kind == Some("Create") && body.create.Some? {
      CreateKeepsValid(env, src, t, n, body.create.value);
      CreateKeepsResolved(env, src, t, n, body.create.value);
    } else if body.kind == Some("Announce") && body.boost.Some? {
      BoostKeepsValid(env, src, t, n, body.boost.value);
      BoostKeepsResolved(env, src, t, n, body.boost.value);
    }
  }
}
