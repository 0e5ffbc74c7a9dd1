/**
 * The home timeline endpoint (`ferri-server/src/endpoints/api/timeline.rs`): the rows of its
 * recursive query (the followed users' posts, then every post reached through
 * `boosted_post_id`, each joined with its author), and the loop that turns each row into a
 * status, attaching the boosted post found among the same rows.
 */
module Timeline {
  import opened Wrappers
  import opened Store
  import Db = DbTypes
  import Get
  import Site

  /** The actor whose follows make the timeline: fixed, whoever is signed in. */
  const HOME_ACTOR := Db.USERS_BASE + "9b9d497b-2731-435f-a929-e609ca69dac9"
  const PFP := "https://ferri.amy.mov/assets/pfp.png"
  const ACCOUNT_CREATED_AT := "2025-04-10T22:12:09Z"
  const ACCOUNT_LAST_STATUS_AT := "2025-04-10T22:14:34Z"

  /** One row of the query: a post, its author's columns, and whether it was reached through a boost. */
  datatype Record = Record(
    isBoostSource: bool, postId: string, userId: string, postUri: string, content: string,
    createdAt: string, boostedPostId: Option<string>, displayName: string, username: string)

  /** `CredentialAcount` as the timeline fills it. */
  datatype Account = Account(
    id: string, username: string, acct: string, displayName: string, locked: bool, bot: bool,
    createdAt: string, note: string, url: string,
    avatar: string, avatarStatic: string, header: string, headerStatic: string,
    followersCount: int, followingCount: int, statusesCount: int, lastStatusAt: string)

  /** `TimelineStatus`; its reply ids are always null and its attachments always empty, so they are not kept. */
  datatype Status = Status(
    id: string, createdAt: string, content: string, visibility: string, spoilerText: string,
    sensitive: bool, uri: string, url: string,
    repliesCount: int, reblogsCount: int, favouritesCount: int,
    favourited: bool, reblogged: bool, muted: bool, bookmarked: bool,
    reblog: Option<Status>, account: Account)

  function RecordPostId(r: Record): string { r.postId }

  // ------------------------------------------------------------------ query

  /** A post joined with its author (`JOIN user u ON u.id = p.user_id`); a post without one is dropped. */
  function RecordsOf(users: seq<UserRow>, posts: seq<PostRow>, flag: bool): (r: seq<Record>)
    ensures |r| <= |posts|
    ensures forall x :: x in r ==>
      && x.isBoostSource == flag
      && exists p :: p in posts && p.id == x.postId && p.uri == x.postUri && p.boostedPostId == x.boostedPostId
  {
    if |posts| == 0 then []
    else
      var p := posts[0];
      var rest := RecordsOf(users, posts[1..], flag);
      assert forall x :: x in rest ==>
        exists q :: q in posts && q.id == x.postId && q.uri == x.postUri && q.boostedPostId == x.boostedPostId;
      match Find(users, UserId, p.userId)
      case None => rest
      case Some(u) =>
        [Record(flag, p.id, u.id, p.uri, p.content, p.createdAt, p.boostedPostId, u.displayName, u.username)] + rest
  }

  /**
   * The rows of the query: the posts of the users `HOME_ACTOR` follows, flagged 0, then the
   * posts reached from them by `boosted_post_id`, flagged 1, each set in rowid order.
   */
  function Rows(t: Tables): seq<Record> {
    RecordsOf(t.user, Get.Selected(t.post, Get.BaseIds(t, HOME_ACTOR)), false)
      + RecordsOf(t.user, Get.Selected(t.post, Get.BoostIds(t, HOME_ACTOR)), true)
  }

  // ----------------------------------------------------------------- statuses

  function AccountOf(rec: Record, url: string): Account {
    Account(rec.userId, rec.username, rec.username, rec.displayName, false, false,
            ACCOUNT_CREATED_AT, "", url, PFP, PFP, PFP, PFP, 1, 1, 1, ACCOUNT_LAST_STATUS_AT)
  }

  function StatusOf(rec: Record, reblog: Option<Status>, url: string): Status {
    Status(rec.postId, rec.createdAt, rec.content, "public", "", false, rec.postUri, rec.postUri,
           0, 0, 0, false, false, false, false, reblog, AccountOf(rec, url))
  }

  /**
   * One turn of the loop: the row's status, carrying, when the row boosts a post, that post
   * found among the rows (a miss is the `unwrap` panic). The boosted post's account URL is
   * built from the id of the row's own author, not from the boosted post's author.
   */
  function Entry(ctx: (Site.Site, seq<Record>), rec: Record): (r: Get.Read<Status>)
    ensures !r.Failed?
    ensures r.Panic? <==> rec.boostedPostId.Some? && !Taken(ctx.1, RecordPostId, rec.boostedPostId.value)
  {
    var (site, rows) := ctx;
    match rec.boostedPostId
    case None => Get.Got(StatusOf(rec, None, site.userWebUrl(rec.username)))
    case Some(bid) =>
      match Find(rows, RecordPostId, bid)
      case None => Get.Panic
      case Some(found) =>
        var boost := StatusOf(found, None, site.userUrl(rec.userId));
        Get.Got(StatusOf(rec, Some(boost), site.userWebUrl(rec.username)))
  }

  predicate Emits(rec: Record) { !rec.isBoostSource }

  /** The body of the loop for one row. */
  method HomeEntry(site: Site.Site, posts: seq<Record>, record: Record) returns (r: Get.Read<Status>)
    ensures r == Entry((site, posts), record)
  {
    var boost: Option<Status> := None;
    if record.boostedPostId.Some? {
      var userUri := site.userUrl(record.userId);
      var found := Find(posts, RecordPostId, record.boostedPostId.value);
      if found.None? {
        return Get.Panic;
      }
      boost := Some(StatusOf(found.value, None, userUri));
    }
    return Get.Got(StatusOf(record, boost, site.userWebUrl(record.username)));
  }

  /** The assembly loop over the rows. */
  method Assemble(site: Site.Site, posts: seq<Record>) returns (r: Get.Read<seq<Status>>)
    ensures r == Get.Collect(Entry, Emits, (site, posts), posts)
  {
    ghost var ctx := (site, posts);
    var out := [];
    var i := 0;
    while i < |posts|
      invariant 0 <= i <= |posts|
      invariant Get.Collect(Entry, Emits, ctx, posts[..i]) == Get.Got(out)
    {
      assert posts[..i + 1][..i] == posts[..i];
      var entry := HomeEntry(site, posts, posts[i]);
      if !entry.Got? {
        Get.CollectStays(Entry, Emits, ctx, posts, i + 1);
        return Get.Panic;
      }
      if !posts[i].isBoostSource {
        out := out + [entry.value];
      }
      i := i + 1;
    }
    assert posts[..i] == posts;
    return Get.Got(out);
  }

  /** `home`: the query's rows, assembled. The signed-in user is not consulted. */
  method Home(conn: Connection, site: Site.Site) returns (r: Get.Read<seq<Status>>)
    ensures r == Get.Collect(Entry, Emits, (site, Rows(conn.tables)), Rows(conn.tables))
  {
    r := Assemble(site, Rows(conn.tables));
  }

  // --------------------------------------------------------------- properties

  /**
   * What the loop yields: one status per row not flagged as a boost source, in row order,
   * whose ids, uri and url, and account come from that row.
   */
  lemma HomeInOrder(site: Site.Site, rows: seq<Record>)
    requires Get.Collect(Entry, Emits, (site, rows), rows).Got?
    ensures var out := Get.Collect(Entry, Emits, (site, rows), rows).value;
      var kept := Get.Kept(Emits, rows);
      && |out| == |kept|
      && forall j :: 0 <= j < |kept| ==>
           && !kept[j].isBoostSource
           && out[j].id == kept[j].postId && out[j].uri == kept[j].postUri && out[j].url == kept[j].postUri
           && out[j].account.id == kept[j].userId
           && out[j].account.acct == kept[j].username && out[j].account.username == kept[j].username
           && out[j].account.url == site.userWebUrl(kept[j].username)
  {
    Get.CollectOutcome(Entry, Emits, (site, rows), rows);
    var out := Get.Collect(Entry, Emits, (site, rows), rows).value;
    var kept := Get.Kept(Emits, rows);
    forall j | 0 <= j < |kept|
      ensures out[j].id == kept[j].postId && out[j].uri == kept[j].postUri && out[j].url == kept[j].postUri
      ensures out[j].account.id == kept[j].userId
      ensures out[j].account.acct == kept[j].username && out[j].account.username == kept[j].username
      ensures out[j].account.url == site.userWebUrl(kept[j].username)
    {
      EntryFields(site, rows, kept[j], out[j]);
    }
  }

  /** A status read from a row carries the row's ids, uri and account. */
  lemma EntryFields(site: Site.Site, rows: seq<Record>, rec: Record, s: Status)
    requires Entry((site, rows), rec) == Get.Got(s)
    ensures s.id == rec.postId && s.uri == rec.postUri && s.url == rec.postUri
    ensures s.account.id == rec.userId && s.account.acct == rec.username && s.account.username == rec.username
    ensures s.account.url == site.userWebUrl(rec.username)
  {
  }

  /**
   * A status carries a reblog exactly when its row boosts a post; the reblog is the boosted
   * row's status with no reblog of its own, and its account URL is the booster's `user_url`.
   */
  lemma HomeReblogs(site: Site.Site, rows: seq<Record>, j: nat)
    requires Get.Collect(Entry, Emits, (site, rows), rows).Got?
    requires j < |Get.Kept(Emits, rows)|
    ensures var out := Get.Collect(Entry, Emits, (site, rows), rows).value;
      var row := Get.Kept(Emits, rows)[j];
      && |out| == |Get.Kept(Emits, rows)|
      && var s := out[j];
      && (s.reblog.Some? <==> row.boostedPostId.Some?)
      && (s.reblog.Some? ==>
            && Find(rows, RecordPostId, row.boostedPostId.value).Some?
            && var found := Find(rows, RecordPostId, row.boostedPostId.value).value;
               && s.reblog.value.id == row.boostedPostId.value
               && s.reblog.value.uri == found.postUri && s.reblog.value.content == found.content
               && s.reblog.value.account.id == found.userId
               && s.reblog.value.account.url == site.userUrl(row.userId)
               && s.reblog.value.reblog.None?)
  {
    Get.CollectOutcome(Entry, Emits, (site, rows), rows);
    var row := Get.Kept(Emits, rows)[j];
    assert Entry((site, rows), row) == Get.Got(Get.Collect(Entry, Emits, (site, rows), rows).value[j]);
  }

  /** A row, flagged or not, that boosts a post missing from the rows makes the endpoint panic. */
  lemma HomePanicsOnMissingBoost(site: Site.Site, rows: seq<Record>, k: nat)
    requires k < |rows| && rows[k].boostedPostId.Some?
    requires !Taken(rows, RecordPostId, rows[k].boostedPostId.value)
    ensures Get.Collect(Entry, Emits, (site, rows), rows) == Get.Panic
  {
    Get.CollectOutcome(Entry, Emits, (site, rows), rows);
    assert !Entry((site, rows), rows[k]).Got?;
  }

  /** The rows not flagged as boost sources are posts of the users `HOME_ACTOR` follows. */
  lemma HomeOnlyFollowed(t: Tables, rec: Record)
    requires rec in Get.Kept(Emits, Rows(t))
    ensures exists p :: p in t.post && p.id == rec.postId && p.id in Get.BaseIds(t, HOME_ACTOR)
  {
    var base := Get.Selected(t.post, Get.BaseIds(t, HOME_ACTOR));
    var boosts := Get.Selected(t.post, Get.BoostIds(t, HOME_ACTOR));
    assert rec in RecordsOf(t.user, base, false) + RecordsOf(t.user, boosts, true);
    assert rec !in RecordsOf(t.user, boosts, true);
    var p :| p in base && p.id == rec.postId && p.uri == rec.postUri && p.boostedPostId == rec.boostedPostId;
  }

  /** The stored post a row of the query was read from: a base row or a boost row. */
  lemma RowSource(t: Tables, k: nat) returns (from: PostRow)
    requires k < |Rows(t)|
    ensures from in t.post && from.id in Get.BaseIds(t, HOME_ACTOR) + Get.BoostIds(t, HOME_ACTOR)
    ensures from.id == Rows(t)[k].postId && from.boostedPostId == Rows(t)[k].boostedPostId
  {
    var rec := Rows(t)[k];
    var base := Get.Selected(t.post, Get.BaseIds(t, HOME_ACTOR));
    var boosts := Get.Selected(t.post, Get.BoostIds(t, HOME_ACTOR));
    assert rec in RecordsOf(t.user, base, false) + RecordsOf(t.user, boosts, true);
    if rec in RecordsOf(t.user, base, false) {
      from :| from in base && from.id == rec.postId && from.boostedPostId == rec.boostedPostId;
    } else {
      from :| from in boosts && from.id == rec.postId && from.boostedPostId == rec.boostedPostId;
    }
  }

  /**
   * A row of the query that boosts an id no stored post has (the dangling boost that
   * `FedInbox.BoostDangles` shows the Announce arm can write) makes `home` panic.
   */
  lemma HomePanicsOnDanglingBoost(site: Site.Site, t: Tables, k: nat)
    requires k < |Rows(t)| && Rows(t)[k].boostedPostId.Some?
    requires !Taken(t.post, PostId, Rows(t)[k].boostedPostId.value)
    ensures Get.Collect(Entry, Emits, (site, Rows(t)), Rows(t)) == Get.Panic
  {
    var bid := Rows(t)[k].boostedPostId.value;
    forall j | 0 <= j < |Rows(t)|
      ensures RecordPostId(Rows(t)[j]) != bid
    {
      var from := RowSource(t, j);
      var i :| 0 <= i < |t.post| && t.post[i] == from;
      assert PostId(t.post[i]) == Rows(t)[j].postId;
    }
    HomePanicsOnMissingBoost(site, Rows(t), k);
  }

  /** Every stored post a row boosts is reached by the recursive part of the query, flagged as a boost source. */
  lemma HomeBoostTargetsReached(t: Tables, k: nat, target: PostRow)
    requires k < |Rows(t)| && Rows(t)[k].boostedPostId == Some(target.id)
    requires target in t.post
    ensures target.id in Get.BoostIds(t, HOME_ACTOR)
  {
    var from := RowSource(t, k);
    var i :| 0 <= i < |t.post| && t.post[i] == target;
    var j :| 0 <= j < |t.post| && t.post[j] == from;
    assert target.id in Get.BoostTargets(t, Get.BaseIds(t, HOME_ACTOR) + Get.BoostIds(t, HOME_ACTOR));
    Get.BoostIdsClosed(t, HOME_ACTOR);
  }
}
