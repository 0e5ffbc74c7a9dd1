/**
 * The write side of the store (`ferri-main/src/types/make.rs`): one function per `new_*`
 * giving the tables after the statement and the value returned, and the methods that run
 * those statements against a connection.
 */
module Make {
  import opened Wrappers
  import Time
  import Db = DbTypes
  import opened Store

  function ActorRowOf(a: Db.Actor): ActorRow {
    ActorRow(a.id, a.inbox, a.outbox)
  }

  /** Every column is written; `created_at` as an RFC 3339 string. */
  function UserRowOf(u: Db.User): UserRow {
    UserRow(u.id, Some(u.acct), Some(u.url), Some(Time.ToRfc3339(u.createdAt)), Some(u.remote),
            u.username, u.actor.id, u.displayName, Some(u.iconUrl))
  }

  /** As written, the follower is bound to both the follower and the followed column. */
  function FollowRowOf(f: Db.Follow): FollowRow {
    FollowRow(f.id, f.follower, f.follower)
  }

  function AttachmentRowOf(a: Db.Attachment): AttachmentRow {
    AttachmentRow(a.id, a.postId, a.url, a.mediaType, a.sensitive, a.alt)
  }

  function PostRowOf(p: Db.Post): PostRow {
    PostRow(p.id, p.uri, p.user.id, p.content, Time.ToRfc3339(p.createdAt),
            if p.boostedPost.Some? then Some(p.boostedPost.value.id) else None)
  }

  function AttachmentRowsOf(atts: seq<Db.Attachment>): (r: seq<AttachmentRow>)
    ensures |r| == |atts| && forall k :: 0 <= k < |atts| ==> r[k] == AttachmentRowOf(atts[k])
  {
    if |atts| == 0 then [] else AttachmentRowsOf(atts[..|atts| - 1]) + [AttachmentRowOf(atts[|atts| - 1])]
  }

  // ------------------------------------------------------- effect functions

  /** `new_actor`: insert-or-ignore on `id`, which is the table's only key, so it never fails. */
  function NewActorEffect(t: Tables, a: Db.Actor): (r: (Tables, Result<Db.Actor, Db.DbError>))
    ensures r.1 == Ok(a)
    ensures r.0.(actor := t.actor) == t && t.actor <= r.0.actor
    ensures Taken(r.0.actor, ActorId, a.id)
    ensures Taken(t.actor, ActorId, a.id) ==> r.0 == t
    ensures !Taken(t.actor, ActorId, a.id) ==> r.0.actor == t.actor + [ActorRowOf(a)]
  {
    OneKey(t.actor, ActorRowOf(a), ActorId);
    var rows := InsertOrIgnore(t.actor, ActorRowOf(a), ActorId, ActorKeys());
    InsertOrIgnoreStores(t.actor, ActorRowOf(a), ActorId, ActorKeys());
    (t.(actor := rows.value), Ok(a))
  }

  /**
   * `new_user`: insert-or-ignore on `actor_id`. A user already stored for that actor is
   * kept as it is, and the argument, not the stored row, is returned.
   */
  function NewUserEffect(t: Tables, u: Db.User): (r: (Tables, Result<Db.User, Db.DbError>))
    ensures r.1.Ok? ==> r.1.value == u
    ensures r.1.Err? <==> !Taken(t.user, UserActorId, u.actor.id) && Taken(t.user, UserId, u.id)
    ensures r.1.Err? ==> r.0 == t
    ensures Taken(t.user, UserActorId, u.actor.id) ==> r.0 == t
    ensures r.1.Ok? ==> r.0.(user := t.user) == t && t.user <= r.0.user
                        && Taken(r.0.user, UserActorId, u.actor.id)
    ensures r.1.Ok? && !Taken(t.user, UserActorId, u.actor.id) ==> r.0.user == t.user + [UserRowOf(u)]
  {
    TwoKeys(t.user, UserRowOf(u), UserId, UserActorId);
    match InsertOrIgnore(t.user, UserRowOf(u), UserActorId, UserKeys())
    case None => (t, Err(Db.CreationError))
    case Some(rows) =>
      InsertOrIgnoreStores(t.user, UserRowOf(u), UserActorId, UserKeys());
      (t.(user := rows), Ok(u))
  }

  /** `new_follow`: a plain insert, so a second follow with the same id is an error. */
  function NewFollowEffect(t: Tables, f: Db.Follow): (r: (Tables, Result<Db.Follow, Db.DbError>))
    ensures r.1.Err? <==> Taken(t.follow, FollowId, f.id)
    ensures r.1.Err? ==> r.0 == t
    ensures r.1.Ok? ==> r.1.value == f && r.0 == t.(follow := t.follow + [FollowRowOf(f)])
  {
    OneKey(t.follow, FollowRowOf(f), FollowId);
    match Insert(t.follow, FollowRowOf(f), FollowKeys())
    case None => (t, Err(Db.CreationError))
    case Some(rows) => (t.(follow := rows), Ok(f))
  }

  /** `new_attachment`: a plain insert keyed by the attachment id. */
  function NewAttachmentEffect(t: Tables, a: Db.Attachment)
    : (r: (Tables, Result<Db.Attachment, Db.DbError>))
    ensures r.1.Err? <==> Taken(t.attachment, AttachmentId, a.id)
    ensures r.1.Err? ==> r.0 == t
    ensures r.1.Ok? ==> r.1.value == a && r.0 == t.(attachment := t.attachment + [AttachmentRowOf(a)])
  {
    OneKey(t.attachment, AttachmentRowOf(a), AttachmentId);
    match Insert(t.attachment, AttachmentRowOf(a), AttachmentKeys())
    case None => (t, Err(Db.CreationError))
    case Some(rows) => (t.(attachment := rows), Ok(a))
  }

  /**
   * The attachment loop of `new_post`: each attachment in turn, stopping at the first
   * failing insert and keeping the ones already written. The flag says whether all went in.
   */
  function AttachRows(rows: seq<AttachmentRow>, atts: seq<Db.Attachment>): (seq<AttachmentRow>, bool)
    decreases |atts|
  {
    if |atts| == 0 then (rows, true)
    else
      var (prev, ok) := AttachRows(rows, atts[..|atts| - 1]);
      if !ok then (prev, false)
      else match Insert(prev, AttachmentRowOf(atts[|atts| - 1]), AttachmentKeys())
        case None => (prev, false)
        case Some(next) => (next, true)
  }

  /**
   * `new_post`: insert-or-ignore on `uri`, then the attachments, whether or not the post
   * row was written.
   */
  function NewPostEffect(t: Tables, p: Db.Post): (r: (Tables, Result<Db.Post, Db.DbError>))
    ensures r.1.Ok? ==> r.1.value == p
    ensures r.0.(post := t.post, attachment := t.attachment) == t
    ensures t.post <= r.0.post && t.attachment <= r.0.attachment
  {
    match InsertOrIgnore(t.post, PostRowOf(p), PostUri, PostKeys())
    case None => (t, Err(Db.CreationError))
    case Some(posts) =>
      AttachRowsGrows(t.attachment, p.attachments);
      var (atts, ok) := AttachRows(t.attachment, p.attachments);
      (t.(post := posts, attachment := atts), if ok then Ok(p) else Err(Db.CreationError))
  }

  // ---------------------------------------------------------------- lemmas

  lemma {:induction false} AttachRowsGrows(rows: seq<AttachmentRow>, atts: seq<Db.Attachment>)
    ensures rows <= AttachRows(rows, atts).0
    decreases |atts|
  {
    if |atts| > 0 {
      AttachRowsGrows(rows, atts[..|atts| - 1]);
    }
  }

  /** The attachments of `atts` have pairwise distinct ids, none of them stored in `rows`. */
  predicate IdsFresh(rows: seq<AttachmentRow>, atts: seq<Db.Attachment>) {
    && (forall k :: 0 <= k < |atts| ==> !Taken(rows, AttachmentId, atts[k].id))
    && (forall a, b :: 0 <= a < b < |atts| ==> atts[a].id != atts[b].id)
  }

  lemma TakenAppendRows(rows: seq<AttachmentRow>, atts: seq<Db.Attachment>, x: string)
    ensures Taken(rows + AttachmentRowsOf(atts), AttachmentId, x)
        <==> Taken(rows, AttachmentId, x) || exists k :: 0 <= k < |atts| && atts[k].id == x
  {
    var all := rows + AttachmentRowsOf(atts);
    if Taken(all, AttachmentId, x) {
      var i :| 0 <= i < |all| && AttachmentId(all[i]) == x;
      if i >= |rows| {
        assert all[i] == AttachmentRowOf(atts[i - |rows|]);
      } else {
        assert all[i] == rows[i];
      }
    }
    if Taken(rows, AttachmentId, x) {
      var i :| 0 <= i < |rows| && AttachmentId(rows[i]) == x;
      assert all[i] == rows[i];
    }
    if exists k :: 0 <= k < |atts| && atts[k].id == x {
      var k :| 0 <= k < |atts| && atts[k].id == x;
      assert all[|rows| + k] == AttachmentRowOf(atts[k]);
    }
  }

  lemma IdsFreshSnoc(rows: seq<AttachmentRow>, atts: seq<Db.Attachment>)
    requires |atts| > 0
    ensures IdsFresh(rows, atts) <==>
      var init, last := atts[..|atts| - 1], atts[|atts| - 1];
      && IdsFresh(rows, init) && !Taken(rows, AttachmentId, last.id)
      && forall k :: 0 <= k < |init| ==> init[k].id != last.id
  {
    var n := |atts| - 1;
    var init := atts[..n];
    assert forall k :: 0 <= k < n ==> init[k] == atts[k];
  }

  /** When every insert succeeds the loop appends the attachments' rows in order. */
  lemma {:induction false} AttachRowsAll(rows: seq<AttachmentRow>, atts: seq<Db.Attachment>)
    ensures AttachRows(rows, atts).1 ==> AttachRows(rows, atts).0 == rows + AttachmentRowsOf(atts)
    decreases |atts|
  {
    if |atts| > 0 {
      AttachRowsAll(rows, atts[..|atts| - 1]);
    }
  }

  /** The loop inserts all attachments exactly when their ids are fresh. */
  lemma {:induction false} AttachRowsOk(rows: seq<AttachmentRow>, atts: seq<Db.Attachment>)
    ensures AttachRows(rows, atts).1 <==> IdsFresh(rows, atts)
    decreases |atts|
  {
    if |atts| > 0 {
      var n := |atts| - 1;
      var init, last := atts[..n], atts[n];
      AttachRowsOk(rows, init);
      AttachRowsAll(rows, init);
      IdsFreshSnoc(rows, atts);
      var (prev, ok) := AttachRows(rows, init);
      if ok {
        TakenAppendRows(rows, init, last.id);
        OneKey(prev, AttachmentRowOf(last), AttachmentId);
      }
    }
  }

  /** Otherwise it stops at the first attachment whose id is taken, keeping the ones before it. */
  lemma {:induction false} AttachRowsStops(rows: seq<AttachmentRow>, atts: seq<Db.Attachment>)
    ensures !AttachRows(rows, atts).1 ==> StoppedAt(rows, atts, AttachRows(rows, atts).0)
    decreases |atts|
  {
    if |atts| > 0 {
      var n := |atts| - 1;
      AttachRowsStops(rows, atts[..n]);
      AttachRowsAll(rows, atts[..n]);
      if !AttachRows(rows, atts[..n]).1 {
        StopCarries(rows, atts);
      } else if !AttachRows(rows, atts).1 {
        StopAtLast(rows, atts);
      }
    }
  }

  /** The loop over `rows` left `out`, having stopped at an attachment whose id was taken. */
  predicate StoppedAt(rows: seq<AttachmentRow>, atts: seq<Db.Attachment>, out: seq<AttachmentRow>) {
    exists k :: 0 <= k < |atts|
      && out == rows + AttachmentRowsOf(atts[..k])
      && Taken(rows + AttachmentRowsOf(atts[..k]), AttachmentId, atts[k].id)
  }

  lemma StopCarries(rows: seq<AttachmentRow>, atts: seq<Db.Attachment>)
    requires |atts| > 0
    requires var init := atts[..|atts| - 1];
      !AttachRows(rows, init).1 && StoppedAt(rows, init, AttachRows(rows, init).0)
    ensures StoppedAt(rows, atts, AttachRows(rows, atts).0)
  {
    var init := atts[..|atts| - 1];
    var prev := AttachRows(rows, init);
    assert AttachRows(rows, atts) == prev;
    var k :| 0 <= k < |init|
      && prev.0 == rows + AttachmentRowsOf(init[..k])
      && Taken(rows + AttachmentRowsOf(init[..k]), AttachmentId, init[k].id);
    assert init[..k] == atts[..k] && init[k] == atts[k];
  }

  lemma StopAtLast(rows: seq<AttachmentRow>, atts: seq<Db.Attachment>)
    requires |atts| > 0
    requires var init := atts[..|atts| - 1];
      AttachRows(rows, init).1 && AttachRows(rows, init).0 == rows + AttachmentRowsOf(init)
    requires !AttachRows(rows, atts).1
    ensures StoppedAt(rows, atts, AttachRows(rows, atts).0)
  {
    var n := |atts| - 1;
    var prev := AttachRows(rows, atts[..n]);
    OneKey(prev.0, AttachmentRowOf(atts[n]), AttachmentId);
    assert AttachRows(rows, atts).0 == prev.0;
    assert Taken(rows + AttachmentRowsOf(atts[..n]), AttachmentId, atts[n].id);
  }

  /** A later failure keeps the state the loop stopped in. */
  lemma {:induction false} AttachRowsStays(rows: seq<AttachmentRow>, atts: seq<Db.Attachment>, i: nat)
    requires i <= |atts| && !AttachRows(rows, atts[..i]).1
    ensures AttachRows(rows, atts) == AttachRows(rows, atts[..i])
    decreases |atts| - i
  {
    if i < |atts| {
      var next := atts[..i + 1];
      assert next[..i] == atts[..i];
      AttachRowsStays(rows, atts, i + 1);
    } else {
      assert atts[..i] == atts;
    }
  }

  /** On a post whose uri is already stored the post table is unchanged, yet the attachments are written. */
  lemma NewPostIgnoredStillAttaches(t: Tables, p: Db.Post)
    requires Taken(t.post, PostUri, p.uri)
    requires IdsFresh(t.attachment, p.attachments)
    ensures NewPostEffect(t, p) == (t.(attachment := t.attachment + AttachmentRowsOf(p.attachments)), Ok(p))
  {
    AttachRowsOk(t.attachment, p.attachments);
    AttachRowsAll(t.attachment, p.attachments);
  }

  /** `new_post` succeeds exactly when the post row is acceptable and all attachment ids are fresh. */
  lemma NewPostOutcome(t: Tables, p: Db.Post)
    ensures NewPostEffect(t, p).1.Ok? <==>
      InsertOrIgnore(t.post, PostRowOf(p), PostUri, PostKeys()).Some? && IdsFresh(t.attachment, p.attachments)
    ensures NewPostEffect(t, p).1.Ok? ==>
      NewPostEffect(t, p).0.attachment == t.attachment + AttachmentRowsOf(p.attachments)
  {
    AttachRowsOk(t.attachment, p.attachments);
    AttachRowsAll(t.attachment, p.attachments);
  }

  /** `new_post` stores the boosted post's id, or NULL for an original post. */
  lemma NewPostStoresBoost(t: Tables, p: Db.Post)
    requires !Taken(t.post, PostUri, p.uri) && NewPostEffect(t, p).1.Ok?
    ensures NewPostEffect(t, p).0.post == t.post + [PostRowOf(p)]
    ensures PostRowOf(p).boostedPostId.Some? <==> p.boostedPost.Some?
    ensures p.boostedPost.Some? ==> PostRowOf(p).boostedPostId == Some(p.boostedPost.value.id)
  {
  }

  /**
   * `new_post` adds at most its own row to the post table: none when the URI is stored,
   * else the row at the end; and once it succeeds, the URI is stored.
   */
  lemma NewPostRows(t: Tables, p: Db.Post)
    ensures var r := NewPostEffect(t, p);
      && (r.0.post == t.post || r.0.post == t.post + [PostRowOf(p)])
      && (Taken(t.post, PostUri, p.uri) ==> r.0.post == t.post)
      && (r.1.Ok? ==> Taken(r.0.post, PostUri, p.uri))
  {
    var r := NewPostEffect(t, p);
    if r.1.Ok? {
      NewPostOutcome(t, p);
      InsertOrIgnoreStores(t.post, PostRowOf(p), PostUri, PostKeys());
    }
  }

  /** The stored follow does not record who is followed: both columns hold the follower. */
  lemma NewFollowLosesFollowed(t: Tables, f: Db.Follow)
    requires NewFollowEffect(t, f).1.Ok?
    ensures NewFollowEffect(t, f).0.follow[|t.follow|] == FollowRow(f.id, f.follower, f.follower)
  {
  }

  /** Each statement keeps the store's key invariant. */
  lemma NewActorKeepsValid(t: Tables, a: Db.Actor)
    requires Valid(t)
    ensures Valid(NewActorEffect(t, a).0)
  {
    OneKey(t.actor, ActorRowOf(a), ActorId);
    InsertOrIgnoreKeepsUnique(t.actor, ActorRowOf(a), ActorId, ActorKeys());
  }

  lemma NewUserKeepsValid(t: Tables, u: Db.User)
    requires Valid(t)
    ensures Valid(NewUserEffect(t, u).0)
  {
    if NewUserEffect(t, u).1.Ok? {
      InsertOrIgnoreKeepsUnique(t.user, UserRowOf(u), UserActorId, UserKeys());
    }
  }

  lemma NewFollowKeepsValid(t: Tables, f: Db.Follow)
    requires Valid(t)
    ensures Valid(NewFollowEffect(t, f).0)
  {
    if NewFollowEffect(t, f).1.Ok? {
      InsertKeepsUnique(t.follow, FollowRowOf(f), FollowKeys());
    }
  }

  lemma NewAttachmentKeepsValid(t: Tables, at: Db.Attachment)
    requires Valid(t)
    ensures Valid(NewAttachmentEffect(t, at).0)
  {
    if NewAttachmentEffect(t, at).1.Ok? {
      InsertKeepsUnique(t.attachment, AttachmentRowOf(at), AttachmentKeys());
    }
  }

  lemma {:induction false} AttachRowsKeepsUnique(rows: seq<AttachmentRow>, atts: seq<Db.Attachment>)
    requires AllUnique(rows, AttachmentKeys())
    ensures AllUnique(AttachRows(rows, atts).0, AttachmentKeys())
    decreases |atts|
  {
    if |atts| > 0 {
      var init := atts[..|atts| - 1];
      AttachRowsKeepsUnique(rows, init);
      var (prev, ok) := AttachRows(rows, init);
      if ok && Insert(prev, AttachmentRowOf(atts[|atts| - 1]), AttachmentKeys()).Some? {
        InsertKeepsUnique(prev, AttachmentRowOf(atts[|atts| - 1]), AttachmentKeys());
      }
    }
  }

  lemma NewPostKeepsValid(t: Tables, p: Db.Post)
    requires Valid(t)
    ensures Valid(NewPostEffect(t, p).0)
  {
    if InsertOrIgnore(t.post, PostRowOf(p), PostUri, PostKeys()).Some? {
      InsertOrIgnoreKeepsUnique(t.post, PostRowOf(p), PostUri, PostKeys());
      AttachRowsKeepsUnique(t.attachment, p.attachments);
    }
  }

  /** Delivering the same actor, user or post-without-attachments twice stores it once. */
  lemma NewEffectsIdempotent(t: Tables, a: Db.Actor, u: Db.User, p: Db.Post)
    requires p.attachments == []
    ensures NewActorEffect(NewActorEffect(t, a).0, a) == NewActorEffect(t, a)
    ensures NewUserEffect(t, u).1.Ok? ==> NewUserEffect(NewUserEffect(t, u).0, u) == NewUserEffect(t, u)
    ensures NewPostEffect(t, p).1.Ok? ==> NewPostEffect(NewPostEffect(t, p).0, p) == NewPostEffect(t, p)
  {
    if NewPostEffect(t, p).1.Ok? {
      InsertOrIgnoreStores(t.post, PostRowOf(p), PostUri, PostKeys());
    }
  }

  // --------------------------------------------------------------- methods

  method NewActor(conn: Connection, actor: Db.Actor) returns (r: Result<Db.Actor, Db.DbError>)
    modifies conn
    ensures (conn.tables, r) == NewActorEffect(old(conn.tables), actor)
  {
    OneKey(conn.tables.actor, ActorRowOf(actor), ActorId);
    var rows := InsertOrIgnore(conn.tables.actor, ActorRowOf(actor), ActorId, ActorKeys());
    conn.tables := conn.tables.(actor := rows.value);
    return Ok(actor);
  }

  method NewUser(conn: Connection, user: Db.User) returns (r: Result<Db.User, Db.DbError>)
    modifies conn
    ensures (conn.tables, r) == NewUserEffect(old(conn.tables), user)
  {
    var rows := InsertOrIgnore(conn.tables.user, UserRowOf(user), UserActorId, UserKeys());
    if rows.None? {
      return Err(Db.CreationError);
    }
    conn.tables := conn.tables.(user := rows.value);
    return Ok(user);
  }

  method NewFollow(conn: Connection, follow: Db.Follow) returns (r: Result<Db.Follow, Db.DbError>)
    modifies conn
    ensures (conn.tables, r) == NewFollowEffect(old(conn.tables), follow)
  {
    var rows := Insert(conn.tables.follow, FollowRowOf(follow), FollowKeys());
    if rows.None? {
      return Err(Db.CreationError);
    }
    conn.tables := conn.tables.(follow := rows.value);
    return Ok(follow);
  }

  method NewAttachment(conn: Connection, attachment: Db.Attachment)
    returns (r: Result<Db.Attachment, Db.DbError>)
    modifies conn
    ensures (conn.tables, r) == NewAttachmentEffect(old(conn.tables), attachment)
  {
    var rows := Insert(conn.tables.attachment, AttachmentRowOf(attachment), AttachmentKeys());
    if rows.None? {
      return Err(Db.CreationError);
    }
    conn.tables := conn.tables.(attachment := rows.value);
    return Ok(attachment);
  }

  method NewPost(conn: Connection, post: Db.Post) returns (r: Result<Db.Post, Db.DbError>)
    modifies conn
    ensures (conn.tables, r) == NewPostEffect(old(conn.tables), post)
  {
    var rows := InsertOrIgnore(conn.tables.post, PostRowOf(post), PostUri, PostKeys());
    if rows.None? {
      return Err(Db.CreationError);
    }
    conn.tables := conn.tables.(post := rows.value);
    ghost var start := conn.tables;
    var atts := post.attachments;
    var i := 0;
    while i < |atts|
      invariant 0 <= i <= |atts|
      invariant AttachRows(start.attachment, atts[..i]) == (conn.tables.attachment, true)
      invariant conn.tables == start.(attachment := conn.tables.attachment)
    {
      var a := NewAttachment(conn, atts[i]);
      assert atts[..i + 1][..i] == atts[..i];
      if a.Err? {
        assert !AttachRows(start.attachment, atts[..i + 1]).1;
        AttachRowsStays(start.attachment, atts, i + 1);
        return Err(Db.CreationError);
      }
      i := i + 1;
    }
    assert atts[..i] == atts;
    return Ok(post);
  }
}
