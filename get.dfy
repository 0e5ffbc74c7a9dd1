/**
 * The read side of the store (`ferri-main/src/types/get.rs`): timestamp parsing, the
 * mapping of joined user records to `db::User`, the posts of a user and the home timeline.
 * A read changes nothing, so an `.unwrap()` or `.expect()` that fails is the outcome `Panic`.
 */
module Get {
  import opened Wrappers
  import Time
  import Db = DbTypes
  import opened Store
  import Sets

  datatype Read<+T> = Got(value: T) | Failed(error: Db.DbError) | Panic

  // ------------------------------------------------------------- parse_ts

  /**
   * `parse_ts`: the naive `%Y-%m-%d %H:%M:%S` form read as UTC first, then RFC 3339
   * converted to UTC; `None` when neither applies.
   */
  function ParseTs(s: string): (r: Option<Time.Instant>)
    ensures r.Some? <==> Time.ParseSqlite(s).Some? || Time.ParseRfc3339(s).Some?
    ensures Time.ParseSqlite(s).Some? ==> r == Time.ParseSqlite(s)
    ensures Time.ParseSqlite(s).None? ==> r == Time.ParseRfc3339(s)
  {
    match Time.ParseSqlite(s)
    case Some(t) => Some(t)
    case None =>
      match Time.ParseRfc3339(s)
      case Some(t) => Some(t)
      case None => None
  }

  /** What the store writes (`to_rfc3339`) is read back as the same instant. */
  lemma ParseTsRfc3339(t: Time.Instant)
    requires Time.FourDigitYear(t)
    ensures ParseTs(Time.ToRfc3339(t)) == Some(t)
  {
    Time.ParseSqliteRejectsRfc3339(t);
    Time.ParseRfc3339Of(t);
  }

  /** What SQLite's `datetime()` yields is read back as the instant to the second. */
  lemma ParseTsSqlite(t: Time.Instant)
    requires Time.FourDigitYear(t)
    ensures ParseTs(Time.SqliteDatetime(t)) == Some(t.(nano := 0))
  {
    Time.ParseSqliteOf(t);
  }

  // ------------------------------------------------------------ user rows

  /** Whether every column the user mapping reads as non-null holds a value. */
  predicate Complete(u: UserRow) {
    u.acct.Some? && u.url.Some? && u.createdAt.Some? && u.remote.Some? && u.iconUrl.Some?
  }

  /**
   * The record of a user joined with its actor: `created_at` that does not parse is the
   * `expect("no db corruption")` panic; a NULL in a non-null column fails the fetch.
   */
  function UserOf(u: UserRow, a: ActorRow, lastPostAt: Option<Time.Instant>): (r: Read<Db.User>)
    ensures r.Failed? <==> !Complete(u)
    ensures r.Panic? <==> Complete(u) && ParseTs(u.createdAt.value).None?
    ensures r.Got? ==>
      && r.value.id == u.id && r.value.keyId == Db.KeyIdFor(u.id)
      && r.value.actor == Db.Actor(a.id, a.inbox, a.outbox)
      && r.value.username == u.username && r.value.displayName == u.displayName
      && r.value.createdAt == ParseTs(u.createdAt.value).value
      && r.value.lastPostAt == lastPostAt
  {
    if !Complete(u) then Failed(Db.FetchError)
    else
      match ParseTs(u.createdAt.value)
      case None => Panic
      case Some(created) =>
        Got(Db.User(u.id, Db.Actor(a.id, a.inbox, a.outbox), u.username, u.displayName,
                    u.acct.value, u.remote.value, u.url.value, created, u.iconUrl.value,
                    lastPostAt, Db.KeyIdFor(u.id)))
  }

  /** The first user row, in rowid order, that `pick` selects and that joins an actor row. */
  function UserRecord(users: seq<UserRow>, actors: seq<ActorRow>, pick: UserRow -> bool)
    : (r: Option<(UserRow, ActorRow)>)
    ensures r.Some? ==>
      && r.value.0 in users && pick(r.value.0)
      && Find(actors, ActorId, r.value.0.actorId) == Some(r.value.1)
    ensures r.None? <==> forall i :: 0 <= i < |users| && pick(users[i]) ==> !Taken(actors, ActorId, users[i].actorId)
  {
    if |users| == 0 then None
    else if pick(users[0]) && Find(actors, ActorId, users[0].actorId).Some? then
      Some((users[0], Find(actors, ActorId, users[0].actorId).value))
    else
      var r := UserRecord(users[1..], actors, pick);
      assert forall i :: 1 <= i < |users| ==> users[i] == users[1..][i - 1];
      r
  }

  /** The user query shared by `user_by_id`, `user_by_username` and `user_by_actor_uri`. */
  function UserWhere(t: Tables, pick: UserRow -> bool): (r: Read<Db.User>)
    ensures r.Got? ==> exists i :: 0 <= i < |t.user| && pick(t.user[i]) && r.value.id == t.user[i].id
  {
    match UserRecord(t.user, t.actor, pick)
    case None => Failed(Db.FetchError)
    case Some((u, a)) => UserOf(u, a, LastPostAt(t, u.id))
  }

  function UserById(t: Tables, id: string): Read<Db.User> {
    UserWhere(t, (u: UserRow) => u.id == id)
  }

  function UserByUsername(t: Tables, username: string): Read<Db.User> {
    UserWhere(t, (u: UserRow) => u.username == username)
  }

  function UserByActorUri(t: Tables, uri: string): Read<Db.User> {
    UserWhere(t, (u: UserRow) => u.actorId == uri)
  }

  /** Every user handed out carries the key id built from its own id. */
  lemma UsersCarryKeyId(t: Tables, id: string, username: string, uri: string)
    ensures UserById(t, id).Got? ==>
      (UserById(t, id).value.id == id && UserById(t, id).value.keyId == Db.KeyIdFor(id))
    ensures UserByUsername(t, username).Got? ==>
      (&& UserByUsername(t, username).value.username == username
       && UserByUsername(t, username).value.keyId == Db.KeyIdFor(UserByUsername(t, username).value.id))
    ensures UserByActorUri(t, uri).Got? ==>
      (&& UserByActorUri(t, uri).value.actor.id == uri
       && UserByActorUri(t, uri).value.keyId == Db.KeyIdFor(UserByActorUri(t, uri).value.id))
  {
    ghost var pick := (u: UserRow) => u.actorId == uri;
    if UserByActorUri(t, uri).Got? {
      var (u, a) := UserRecord(t.user, t.actor, pick).value;
      assert a.id == u.actorId;
    }
  }

  /** With no user row for `id` the query fails with a fetch error. */
  lemma UserByIdMissing(t: Tables, id: string)
    requires !Taken(t.user, UserId, id)
    ensures UserById(t, id) == Failed(Db.FetchError)
  {
    ghost var pick := (u: UserRow) => u.id == id;
    forall i | 0 <= i < |t.user|
      ensures !pick(t.user[i])
    {
      assert UserId(t.user[i]) != id;
    }
  }

  // ---------------------------------------------------------- last_post_at

  /** Whole seconds since 1970-01-01T00:00:00Z. */
  function Seconds(t: Time.Instant): int {
    Time.DaysFromCivil(t.year, t.month, t.day) * 86400 + t.hour * 3600 + t.minute * 60 + t.second
  }

  /** The latest of some instants; the first of them on a tie. */
  function Latest(ts: seq<Time.Instant>): (r: Option<Time.Instant>)
    ensures r.None? <==> |ts| == 0
    ensures r.Some? ==> r.value in ts && forall k :: 0 <= k < |ts| ==> Seconds(ts[k]) <= Seconds(r.value)
  {
    if |ts| == 0 then None
    else
      var rest := Latest(ts[1..]);
      assert forall k :: 1 <= k < |ts| ==> ts[k] == ts[1..][k - 1];
      if rest.None? || Seconds(rest.value) <= Seconds(ts[0]) then Some(ts[0]) else rest
  }

  /**
   * The creation times of a user's posts as `datetime(created_at)` gives them: UTC, to the
   * second, skipping those it cannot read (NULL, dropped by `flatten`).
   */
  function PostTimes(posts: seq<PostRow>, userId: string): (r: seq<Time.Instant>)
    ensures forall k :: 0 <= k < |r| ==> r[k].nano == 0
  {
    if |posts| == 0 then []
    else
      var rest := PostTimes(posts[1..], userId);
      if posts[0].userId == userId && ParseTs(posts[0].createdAt).Some? then
        [ParseTs(posts[0].createdAt).value.(nano := 0)] + rest
      else rest
  }

  /** A user has no post time exactly when none of their posts has a readable time. */
  lemma {:induction false} PostTimesNone(posts: seq<PostRow>, userId: string)
    ensures |PostTimes(posts, userId)| == 0 <==>
      forall i :: 0 <= i < |posts| && posts[i].userId == userId ==> ParseTs(posts[i].createdAt).None?
  {
    if |posts| > 0 {
      PostTimesNone(posts[1..], userId);
      assert forall i :: 1 <= i < |posts| ==> posts[i] == posts[1..][i - 1];
    }
  }

  /** `last_post_at`: the newest post's time, `None` when the user has no readable post. */
  function LastPostAt(t: Tables, userId: string): Option<Time.Instant> {
    Latest(PostTimes(t.post, userId))
  }

  /** A user whose posts carry readable times has a last post time no earlier than any of them. */
  lemma LastPostAtIsNewest(posts: seq<PostRow>, userId: string, i: nat)
    requires i < |posts| && posts[i].userId == userId && ParseTs(posts[i].createdAt).Some?
    ensures Latest(PostTimes(posts, userId)).Some?
    ensures Seconds(ParseTs(posts[i].createdAt).value) <= Seconds(Latest(PostTimes(posts, userId)).value)
  {
    var ts := PostTimes(posts, userId);
    var x := ParseTs(posts[i].createdAt).value.(nano := 0);
    PostTimesHas(posts, userId, i);
    var k :| 0 <= k < |ts| && ts[k] == x;
  }

  lemma {:induction false} PostTimesHas(posts: seq<PostRow>, userId: string, i: nat)
    requires i < |posts| && posts[i].userId == userId && ParseTs(posts[i].createdAt).Some?
    ensures ParseTs(posts[i].createdAt).value.(nano := 0) in PostTimes(posts, userId)
  {
    var rest := PostTimes(posts[1..], userId);
    if i > 0 {
      assert posts[1..][i - 1] == posts[i];
      PostTimesHas(posts[1..], userId, i - 1);
      assert PostTimes(posts, userId) == rest || PostTimes(posts, userId) == [PostTimes(posts, userId)[0]] + rest;
    } else {
      assert PostTimes(posts, userId) == [ParseTs(posts[0].createdAt).value.(nano := 0)] + rest;
    }
  }

  // ----------------------------------------------------------- attachments

  /**
   * `attachments_for_post`: the post's attachment rows in rowid order; `media_type` is read
   * as a non-null column, so a NULL there is the `unwrap` panic.
   */
  function AttachmentsOf(rows: seq<AttachmentRow>, postId: string): (r: Read<seq<Db.Attachment>>)
    ensures !r.Failed?
    ensures r.Panic? <==> exists i :: 0 <= i < |rows| && rows[i].postId == postId && rows[i].mediaType.None?
    ensures r.Got? ==> forall a :: a in r.value ==> a.postId == postId && a.mediaType.Some?
  {
    if |rows| == 0 then Got([])
    else
      var rest := AttachmentsOf(rows[1..], postId);
      assert forall i :: 1 <= i < |rows| ==> rows[i] == rows[1..][i - 1];
      var at := rows[0];
      if at.postId != postId then rest
      else if at.mediaType.None? then Panic
      else if rest.Panic? then Panic
      else Got([Db.Attachment(at.id, at.postId, at.url, at.mediaType, at.sensitive, at.alt)] + rest.value)
  }

  function AttachmentsForPost(t: Tables, postId: string): Read<seq<Db.Attachment>> {
    AttachmentsOf(t.attachment, postId)
  }

  // ---------------------------------------------------------- post records

  /** A post row joined with its author's user and actor rows. */
  datatype PostRecord = PostRecord(post: PostRow, user: UserRow, actor: ActorRow)

  /** The join of post rows with `user` on `user_id` and `actor` on `actor_id`, a row dropped when either is missing. */
  function Join(t: Tables, posts: seq<PostRow>): (r: seq<PostRecord>)
    ensures |r| <= |posts|
    ensures forall x :: x in r ==> x.post in posts
    ensures forall k :: 0 <= k < |r| ==>
      (r[k].post in posts && r[k].user.id == r[k].post.userId && r[k].actor.id == r[k].user.actorId)
  {
    if |posts| == 0 then []
    else
      var rest := Join(t, posts[1..]);
      match Find(t.user, UserId, posts[0].userId)
      case None => rest
      case Some(u) =>
        match Find(t.actor, ActorId, u.actorId)
        case None => rest
        case Some(a) => [PostRecord(posts[0], u, a)] + rest
  }

  /**
   * The record-to-`db::Post` mapping shared by `posts_for_user_id` and `make_into_db`: no
   * boosted post, no last post time, and panics where a time does not parse.
   */
  function PostOf(rec: PostRecord, attachments: seq<Db.Attachment>): (r: Read<Db.Post>)
    ensures !r.Failed?
    ensures r.Got? ==>
      && r.value.id == rec.post.id && r.value.uri == rec.post.uri && r.value.content == rec.post.content
      && r.value.boostedPost.None? && r.value.user.lastPostAt.None?
      && r.value.user.id == rec.user.id && r.value.user.keyId == Db.KeyIdFor(rec.user.id)
      && r.value.attachments == attachments
  {
    if !Complete(rec.user) then Panic
    else
      match UserOf(rec.user, rec.actor, None)
      case Got(user) =>
        (match ParseTs(rec.post.createdAt)
         case None => Panic
         case Some(created) =>
           Got(Db.Post(rec.post.id, rec.post.uri, user, rec.post.content, created, None, attachments)))
      case _ => Panic
  }

  /** A record with its own attachments. */
  function Load(t: Tables, rec: PostRecord): (r: Read<Db.Post>)
    ensures !r.Failed?
    ensures r.Got? ==> r.value.id == rec.post.id && r.value.boostedPost.None?
  {
    match AttachmentsForPost(t, rec.post.id)
    case Got(atts) => PostOf(rec, atts)
    case _ => Panic
  }

  // ------------------------------------------------------------ collecting

  /**
   * Reading `xs` one by one with `f` in context `c`, keeping the results of the items
   * `keep` selects; the first panic ends the whole read.
   */
  function Collect<C, A, B>(f: (C, A) -> Read<B>, keep: A -> bool, c: C, xs: seq<A>): (r: Read<seq<B>>)
    ensures r.Got? || r.Panic?
  {
    if |xs| == 0 then Got([])
    else
      var prev := Collect(f, keep, c, xs[..|xs| - 1]);
      var last := f(c, xs[|xs| - 1]);
      if prev.Got? && last.Got? then
        Got(if keep(xs[|xs| - 1]) then prev.value + [last.value] else prev.value)
      else Panic
  }

  /** The items `keep` selects, in order. */
  function Kept<A>(keep: A -> bool, xs: seq<A>): (r: seq<A>)
    ensures |r| <= |xs| && forall k :: 0 <= k < |r| ==> r[k] in xs && keep(r[k])
  {
    if |xs| == 0 then []
    else Kept(keep, xs[..|xs| - 1]) + (if keep(xs[|xs| - 1]) then [xs[|xs| - 1]] else [])
  }

  /** The read succeeds exactly when every item reads, and yields the kept items' results in order. */
  lemma {:induction false} CollectOutcome<C, A, B>(f: (C, A) -> Read<B>, keep: A -> bool, c: C, xs: seq<A>)
    ensures Collect(f, keep, c, xs).Got? <==> forall k :: 0 <= k < |xs| ==> f(c, xs[k]).Got?
    ensures Collect(f, keep, c, xs).Got? ==>
      (&& |Collect(f, keep, c, xs).value| == |Kept(keep, xs)|
       && forall j :: 0 <= j < |Kept(keep, xs)| ==> f(c, Kept(keep, xs)[j]) == Got(Collect(f, keep, c, xs).value[j]))
  {
    if |xs| > 0 {
      var n := |xs| - 1;
      var init := xs[..n];
      CollectOutcome(f, keep, c, init);
      assert forall k :: 0 <= k < n ==> init[k] == xs[k];
    }
  }

  /** Once a prefix panics the whole read panics. */
  lemma {:induction false} CollectStays<C, A, B>(f: (C, A) -> Read<B>, keep: A -> bool, c: C, xs: seq<A>, i: nat)
    requires 0 < i <= |xs| && Collect(f, keep, c, xs[..i]).Panic?
    ensures Collect(f, keep, c, xs).Panic?
    decreases |xs| - i
  {
    if i < |xs| {
      assert xs[..i + 1][..i] == xs[..i];
      CollectStays(f, keep, c, xs, i + 1);
    } else {
      assert xs[..i] == xs;
    }
  }

  /** One more item that reads adds its result, when kept, to a read that succeeded so far. */
  lemma CollectNext<C, A, B>(f: (C, A) -> Read<B>, keep: A -> bool, c: C, xs: seq<A>, i: nat, out: seq<B>)
    requires i < |xs| && Collect(f, keep, c, xs[..i]) == Got(out) && f(c, xs[i]).Got?
    ensures Collect(f, keep, c, xs[..i + 1]) == Got(if keep(xs[i]) then out + [f(c, xs[i]).value] else out)
  {
    assert xs[..i + 1][..i] == xs[..i];
  }

  predicate Always<A>(x: A) { true }

  /** Every item is kept when `keep` holds throughout. */
  lemma {:induction false} KeptAll<A>(keep: A -> bool, xs: seq<A>)
    requires forall k :: 0 <= k < |xs| ==> keep(xs[k])
    ensures Kept(keep, xs) == xs
  {
    if |xs| > 0 {
      var n := |xs| - 1;
      var init := xs[..n];
      assert forall k :: 0 <= k < |init| ==> init[k] == xs[k];
      KeptAll(keep, init);
      assert init + [xs[n]] == xs;
    }
  }

  /** The posts of one user, in rowid order. */
  function PostsOf(posts: seq<PostRow>, userId: string): (r: seq<PostRow>)
    ensures forall p :: p in r <==> p in posts && p.userId == userId
  {
    if |posts| == 0 then []
    else (if posts[0].userId == userId then [posts[0]] else []) + PostsOf(posts[1..], userId)
  }

  /** `posts_for_user_id`: the user's posts, each loaded with its attachments. */
  method PostsForUserId(conn: Connection, id: string) returns (r: Read<seq<Db.Post>>)
    ensures r == Collect(Load, Always, conn.tables, Join(conn.tables, PostsOf(conn.tables.post, id)))
  {
    var t := conn.tables;
    var records := Join(t, PostsOf(t.post, id));
    var out := [];
    var i := 0;
    while i < |records|
      invariant 0 <= i <= |records|
      invariant Collect(Load, Always, t, records[..i]) == Got(out)
    {
      var attachments := AttachmentsForPost(t, records[i].post.id);
      if !attachments.Got? {
        assert records[..i + 1][..i] == records[..i];
        CollectStays(Load, Always, t, records, i + 1);
        return Panic;
      }
      var post := PostOf(records[i], attachments.value);
      assert post == Load(t, records[i]);
      if !post.Got? {
        assert records[..i + 1][..i] == records[..i];
        CollectStays(Load, Always, t, records, i + 1);
        return Panic;
      }
      CollectNext(Load, Always, t, records, i, out);
      out := out + [post.value];
      i := i + 1;
    }
    assert records[..i] == records;
    return Got(out);
  }

  /** Every post `posts_for_user_id` yields is by that user, with no boosted post and no last post time. */
  lemma PostsForUserShape(t: Tables, id: string)
    ensures Collect(Load, Always, t, Join(t, PostsOf(t.post, id))).Got? ==>
      forall p :: p in Collect(Load, Always, t, Join(t, PostsOf(t.post, id))).value ==>
        (&& p.user.id == id && p.user.keyId == Db.KeyIdFor(id)
         && p.boostedPost.None? && p.user.lastPostAt.None?)
  {
    var recs := Join(t, PostsOf(t.post, id));
    var r := Collect(Load, Always, t, recs);
    if r.Got? {
      CollectOutcome(Load, Always, t, recs);
      KeptAll(Always, recs);
      forall p | p in r.value
        ensures p.user.id == id && p.user.keyId == Db.KeyIdFor(id)
        ensures p.boostedPost.None? && p.user.lastPostAt.None?
      {
        var k :| 0 <= k < |r.value| && r.value[k] == p;
        assert recs[k].post in PostsOf(t.post, id);
        assert Load(t, recs[k]) == Got(p);
      }
    }
  }

  // -------------------------------------------------------------- timeline

  /** The users whose actor `actor` follows, by user id. */
  function FollowedUsers(t: Tables, actor: string): set<string> {
    set i, j | 0 <= i < |t.follow| && 0 <= j < |t.user|
               && t.follow[i].followerId == actor && t.user[j].actorId == t.follow[i].followedId
      :: t.user[j].id
  }

  function PostIds(t: Tables): set<string> {
    set i | 0 <= i < |t.post| :: t.post[i].id
  }

  /** The non-recursive part of the query: the followed users' posts. */
  function BaseIds(t: Tables, actor: string): set<string> {
    set i | 0 <= i < |t.post| && t.post[i].userId in FollowedUsers(t, actor) :: t.post[i].id
  }

  /** The posts that some post with an id in `s` boosts. */
  function BoostTargets(t: Tables, s: set<string>): (r: set<string>)
    ensures r <= PostIds(t)
  {
    set i, j | 0 <= i < |t.post| && 0 <= j < |t.post|
               && t.post[j].id in s && t.post[j].boostedPostId == Some(t.post[i].id)
      :: t.post[i].id
  }

  /** The recursive part of the query: the posts boosted by the base rows or by rows already reached. */
  function BoostStep(ctx: (Tables, set<string>), reached: set<string>): (r: set<string>)
    ensures r <= PostIds(ctx.0)
  {
    BoostTargets(ctx.0, ctx.1 + reached)
  }

  /** The rows flagged as boost sources: every post reached by following `boosted_post_id`. */
  function BoostIds(t: Tables, actor: string): set<string> {
    Sets.Iterate(BoostStep, (t, BaseIds(t, actor)), |PostIds(t)|)
  }

  /** The boost rows are closed under the recursive step: the recursion has reached its fixed point. */
  lemma BoostIdsClosed(t: Tables, actor: string)
    ensures BoostTargets(t, BaseIds(t, actor) + BoostIds(t, actor)) <= BoostIds(t, actor)
  {
    Sets.IterateClosed(BoostStep, (t, BaseIds(t, actor)), PostIds(t));
  }

  /** ... and they are the least such set: any set closed under the step holds all of them. */
  lemma BoostIdsLeast(t: Tables, actor: string, s: set<string>)
    requires BoostTargets(t, BaseIds(t, actor) + s) <= s
    ensures BoostIds(t, actor) <= s
  {
    var ctx := (t, BaseIds(t, actor));
    forall a, b | a <= b
      ensures BoostStep(ctx, a) <= BoostStep(ctx, b)
    {
      BoostTargetsMono(t, ctx.1 + a, ctx.1 + b);
    }
    Sets.IterateLeast(BoostStep, ctx, s, |PostIds(t)|);
  }

  lemma BoostTargetsMono(t: Tables, a: set<string>, b: set<string>)
    requires a <= b
    ensures BoostTargets(t, a) <= BoostTargets(t, b)
  {
  }

  /** The rows of the query: a post with the flag saying whether it was reached as a boosted post. */
  datatype TimelineRow = TimelineRow(isBoostSource: bool, rec: PostRecord)

  function RowPostId(r: TimelineRow): string { r.rec.post.id }

  /** The posts whose id is in `ids`, in rowid order. */
  function Selected(posts: seq<PostRow>, ids: set<string>): (r: seq<PostRow>)
    ensures forall p :: p in r <==> p in posts && p.id in ids
  {
    if |posts| == 0 then []
    else (if posts[0].id in ids then [posts[0]] else []) + Selected(posts[1..], ids)
  }

  function Tag(recs: seq<PostRecord>, flag: bool): (r: seq<TimelineRow>)
    ensures |r| == |recs| && forall k :: 0 <= k < |r| ==> r[k] == TimelineRow(flag, recs[k])
    ensures forall x :: x in r ==> x.isBoostSource == flag && x.rec in recs
  {
    if |recs| == 0 then [] else [TimelineRow(flag, recs[0])] + Tag(recs[1..], flag)
  }

  /**
   * The query's result: the base rows, then the boost-source rows, each in rowid order and
   * each joined with its user and actor (a row without them is dropped by the join).
   */
  function TimelineRows(t: Tables, actor: string): seq<TimelineRow> {
    Tag(Join(t, Selected(t.post, BaseIds(t, actor))), false)
      + Tag(Join(t, Selected(t.post, BoostIds(t, actor))), true)
  }

  predicate Emits(row: TimelineRow) { !row.isBoostSource }

  /**
   * One row of the assembly loop: the post with its attachments and, when it boosts another
   * post, that post taken from the same result set with its own attachments.
   */
  function Entry(ctx: (Tables, seq<TimelineRow>), row: TimelineRow): (r: Read<Db.Post>)
    ensures r.Got? ==> r.value.id == row.rec.post.id
    ensures r.Got? ==> (r.value.boostedPost.Some? <==> row.rec.post.boostedPostId.Some?)
    ensures r.Got? && row.rec.post.boostedPostId.Some? ==>
      (&& Find(ctx.1, RowPostId, row.rec.post.boostedPostId.value).Some?
       && r.value.boostedPost.value.id == row.rec.post.boostedPostId.value
       && r.value.boostedPost.value.boostedPost.None?)
    ensures row.rec.post.boostedPostId.Some? && !Taken(ctx.1, RowPostId, row.rec.post.boostedPostId.value)
            ==> r.Panic?
  {
    var (t, all) := ctx;
    match Load(t, row.rec)
    case Got(base) =>
      (match row.rec.post.boostedPostId
       case None => Got(base)
       case Some(bid) =>
         match Find(all, RowPostId, bid)
         case None => Panic
         case Some(found) =>
           match Load(t, found.rec)
           case Got(boost) => Got(base.(boostedPost := Some(boost)))
           case _ => Panic)
    case _ => Panic
  }

  /** The body of the assembly loop for one row. */
  method AssembleEntry(t: Tables, posts: seq<TimelineRow>, post: TimelineRow) returns (r: Read<Db.Post>)
    ensures r == Entry((t, posts), post)
  {
    var base := Load(t, post.rec);
    if !base.Got? {
      return Panic;
    }
    var entry := base.value;
    if post.rec.post.boostedPostId.Some? {
      var boostId := post.rec.post.boostedPostId.value;
      var found := Find(posts, RowPostId, boostId);
      if found.None? {
        return Panic;
      }
      var boost := Load(t, found.value.rec);
      if !boost.Got? {
        return Panic;
      }
      entry := entry.(boostedPost := Some(boost.value));
    }
    return Got(entry);
  }

  /** The assembly loop of `home_timeline` over the rows of the query. */
  method Assemble(t: Tables, posts: seq<TimelineRow>) returns (r: Read<seq<Db.Post>>)
    ensures r == Collect(Entry, Emits, (t, posts), posts)
  {
    ghost var ctx := (t, posts);
    var out := [];
    var i := 0;
    while i < |posts|
      invariant 0 <= i <= |posts|
      invariant Collect(Entry, Emits, ctx, posts[..i]) == Got(out)
    {
      assert posts[..i + 1][..i] == posts[..i];
      var entry := AssembleEntry(t, posts, posts[i]);
      if !entry.Got? {
        CollectStays(Entry, Emits, ctx, posts, i + 1);
        return Panic;
      }
      if !posts[i].isBoostSource {
        out := out + [entry.value];
      }
      i := i + 1;
    }
    assert posts[..i] == posts;
    return Got(out);
  }

  /** `home_timeline`: the query's rows for `actor`, assembled. */
  method HomeTimeline(conn: Connection, actor: string) returns (r: Read<seq<Db.Post>>)
    ensures r == Collect(Entry, Emits, (conn.tables, TimelineRows(conn.tables, actor)), TimelineRows(conn.tables, actor))
  {
    r := Assemble(conn.tables, TimelineRows(conn.tables, actor));
  }

  /** Only rows not flagged as boost sources are emitted, in the order of the result set. */
  lemma EmitsInOrder(t: Tables, rows: seq<TimelineRow>)
    ensures Collect(Entry, Emits, (t, rows), rows).Got? ==>
      (&& |Collect(Entry, Emits, (t, rows), rows).value| == |Kept(Emits, rows)|
       && forall j :: 0 <= j < |Kept(Emits, rows)| ==>
            (&& !Kept(Emits, rows)[j].isBoostSource
             && Collect(Entry, Emits, (t, rows), rows).value[j].id == Kept(Emits, rows)[j].rec.post.id))
  {
    CollectOutcome(Entry, Emits, (t, rows), rows);
    forall j | 0 <= j < |Kept(Emits, rows)|
      ensures !Kept(Emits, rows)[j].isBoostSource
    {
      assert Kept(Emits, rows)[j] in Kept(Emits, rows);
    }
  }

  /** The emitted rows are the base rows: posts of users the actor follows. */
  lemma TimelineOnlyFollowed(t: Tables, actor: string, row: TimelineRow)
    requires row in Kept(Emits, TimelineRows(t, actor))
    ensures row.rec.post in t.post && row.rec.post.id in BaseIds(t, actor)
  {
    var base := Join(t, Selected(t.post, BaseIds(t, actor)));
    var boosts := Join(t, Selected(t.post, BoostIds(t, actor)));
    assert row in Tag(base, false) + Tag(boosts, true);
    assert row in Tag(base, false);
    assert row.rec in base;
  }

  /** A row that boosts a post absent from the result set makes the whole read panic, flagged or not. */
  lemma PanicsOnMissingBoost(t: Tables, rows: seq<TimelineRow>, k: nat)
    requires k < |rows| && rows[k].rec.post.boostedPostId.Some?
    requires !Taken(rows, RowPostId, rows[k].rec.post.boostedPostId.value)
    ensures Collect(Entry, Emits, (t, rows), rows) == Panic
  {
    CollectOutcome(Entry, Emits, (t, rows), rows);
    assert !Entry((t, rows), rows[k]).Got?;
  }

  /**
   * An emitted post that boosts another carries that post, taken from the same result set,
   * and the boosted post carries no boost of its own.
   */
  lemma BoostsNestOnce(t: Tables, rows: seq<TimelineRow>, j: nat)
    requires Collect(Entry, Emits, (t, rows), rows).Got? && j < |Collect(Entry, Emits, (t, rows), rows).value|
    ensures var p := Collect(Entry, Emits, (t, rows), rows).value[j];
      p.boostedPost.Some? ==>
        (&& Taken(rows, RowPostId, p.boostedPost.value.id)
         && p.boostedPost.value.boostedPost.None?)
  {
    CollectOutcome(Entry, Emits, (t, rows), rows);
    var row := Kept(Emits, rows)[j];
    assert Entry((t, rows), row) == Got(Collect(Entry, Emits, (t, rows), rows).value[j]);
  }
}
