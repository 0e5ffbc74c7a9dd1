/**
 * The SQLite tables the server writes, with the conflict semantics of the statements it
 * runs. A table is the sequence of its rows in insertion (rowid) order, so that a query
 * returning its first matching row is deterministic. Each table's unique keys are listed
 * next to it; the schema itself is not part of this model.
 */
module Store {
  import opened Wrappers

  datatype ActorRow = ActorRow(id: string, inbox: string, outbox: string)

  /** Columns an insert does not write are `None` (SQL NULL). */
  datatype UserRow = UserRow(
    id: string, acct: Option<string>, url: Option<string>, createdAt: Option<string>,
    remote: Option<bool>, username: string, actorId: string, displayName: string,
    iconUrl: Option<string>)

  datatype FollowRow = FollowRow(id: string, followerId: string, followedId: string)

  datatype PostRow = PostRow(
    id: string, uri: string, userId: string, content: string, createdAt: string,
    boostedPostId: Option<string>)

  datatype AttachmentRow = AttachmentRow(
    id: string, postId: string, url: string, mediaType: Option<string>,
    sensitive: bool, alt: Option<string>)

  datatype ActivityRow = ActivityRow(id: string, ty: string, actorId: string)

  datatype AuthRow = AuthRow(token: string, userId: string)

  datatype OAuthRow = OAuthRow(
    idToken: string, clientId: string, expiresIn: int, scope: string, accessToken: string)

  datatype AppRow = AppRow(clientId: string, clientSecret: string, scopes: string)

  datatype Tables = Tables(
    actor: seq<ActorRow>, user: seq<UserRow>, follow: seq<FollowRow>, post: seq<PostRow>,
    attachment: seq<AttachmentRow>, activity: seq<ActivityRow>, auth: seq<AuthRow>,
    oauth: seq<OAuthRow>, app: seq<AppRow>)

  function EmptyTables(): (t: Tables)
    ensures Valid(t)
  {
    Tables([], [], [], [], [], [], [], [], [])
  }

  // ------------------------------------------------------------------ keys

  function ActorId(r: ActorRow): string { r.id }
  function UserId(r: UserRow): string { r.id }
  function UserActorId(r: UserRow): string { r.actorId }
  function FollowId(r: FollowRow): string { r.id }
  function PostId(r: PostRow): string { r.id }
  function PostUri(r: PostRow): string { r.uri }
  function AttachmentId(r: AttachmentRow): string { r.id }
  function ActivityId(r: ActivityRow): string { r.id }
  function AuthToken(r: AuthRow): string { r.token }
  function OAuthIdToken(r: OAuthRow): string { r.idToken }
  function AppClientId(r: AppRow): string { r.clientId }

  function ActorKeys(): seq<ActorRow -> string> { [ActorId] }
  function UserKeys(): seq<UserRow -> string> { [UserId, UserActorId] }
  function FollowKeys(): seq<FollowRow -> string> { [FollowId] }
  function PostKeys(): seq<PostRow -> string> { [PostId, PostUri] }
  function AttachmentKeys(): seq<AttachmentRow -> string> { [AttachmentId] }
  function ActivityKeys(): seq<ActivityRow -> string> { [ActivityId] }
  function AuthKeys(): seq<AuthRow -> string> { [AuthToken] }
  function OAuthKeys(): seq<OAuthRow -> string> { [OAuthIdToken] }
  function AppKeys(): seq<AppRow -> string> { [AppClientId] }

  /** Some stored row has key value `k`. */
  predicate Taken<R>(rows: seq<R>, key: R -> string, k: string) {
    exists i :: 0 <= i < |rows| && key(rows[i]) == k
  }

  /** No two rows share a key value. */
  predicate Unique<R>(rows: seq<R>, key: R -> string) {
    forall i, j :: 0 <= i < j < |rows| ==> key(rows[i]) != key(rows[j])
  }

  predicate AllUnique<R>(rows: seq<R>, keys: seq<R -> string>) {
    forall j :: 0 <= j < |keys| ==> Unique(rows, keys[j])
  }

  /** `row` clashes with a stored row on one of `keys`. */
  predicate Clashes<R>(rows: seq<R>, row: R, keys: seq<R -> string>) {
    |keys| > 0 && (Taken(rows, keys[0], keys[0](row)) || Clashes(rows, row, keys[1..]))
  }

  lemma {:induction false} ClashesAt<R>(rows: seq<R>, row: R, keys: seq<R -> string>, j: nat)
    requires j < |keys|
    ensures Taken(rows, keys[j], keys[j](row)) ==> Clashes(rows, row, keys)
  {
    if j > 0 {
      assert keys[1..][j - 1] == keys[j];
      ClashesAt(rows, row, keys[1..], j - 1);
    }
  }

  /** A table with one unique key clashes on that key. */
  lemma OneKey<R>(rows: seq<R>, row: R, k: R -> string)
    ensures Clashes(rows, row, [k]) <==> Taken(rows, k, k(row))
  {
    assert [k][1..] == [];
  }

  /** A table with two unique keys clashes on either. */
  lemma TwoKeys<R>(rows: seq<R>, row: R, k1: R -> string, k2: R -> string)
    ensures Clashes(rows, row, [k1, k2]) <==> Taken(rows, k1, k1(row)) || Taken(rows, k2, k2(row))
  {
    assert [k1, k2][1..] == [k2];
    OneKey(rows, row, k2);
  }

  /** The invariant every table keeps: its unique keys are unique. */
  predicate Valid(t: Tables) {
    && AllUnique(t.actor, ActorKeys()) && AllUnique(t.user, UserKeys())
    && AllUnique(t.follow, FollowKeys()) && AllUnique(t.post, PostKeys())
    && AllUnique(t.attachment, AttachmentKeys()) && AllUnique(t.activity, ActivityKeys())
    && AllUnique(t.auth, AuthKeys()) && AllUnique(t.oauth, OAuthKeys())
    && AllUnique(t.app, AppKeys())
  }

  // ------------------------------------------------------------ statements

  /** A plain `INSERT`: a clash on any unique key is a constraint error (`None`). */
  function Insert<R>(rows: seq<R>, row: R, keys: seq<R -> string>): (r: Option<seq<R>>)
    ensures r.None? <==> Clashes(rows, row, keys)
  {
    if Clashes(rows, row, keys) then None else Some(rows + [row])
  }

  /**
   * `INSERT … ON CONFLICT(target) DO NOTHING`: a clash on the conflict target leaves the
   * table as it is and succeeds; a clash on another unique key is still an error.
   */
  function InsertOrIgnore<R>(rows: seq<R>, row: R, target: R -> string, keys: seq<R -> string>)
    : (r: Option<seq<R>>)
    ensures Taken(rows, target, target(row)) ==> r == Some(rows)
  {
    if Taken(rows, target, target(row)) then Some(rows) else Insert(rows, row, keys)
  }

  /** The first row (in rowid order) with key value `k`: what `fetch_one` returns. */
  function Find<R>(rows: seq<R>, key: R -> string, k: string): (r: Option<R>)
    ensures r.None? <==> !Taken(rows, key, k)
    ensures r.Some? ==> r.value in rows && key(r.value) == k
    ensures r.Some? ==>
      exists i :: (0 <= i < |rows| && rows[i] == r.value && key(rows[i]) == k
        && forall j :: 0 <= j < i ==> key(rows[j]) != k)
  {
    if |rows| == 0 then None
    else if key(rows[0]) == k then Some(rows[0])
    else
      var r := Find(rows[1..], key, k);
      assert Taken(rows, key, k) <==> Taken(rows[1..], key, k) by {
        if Taken(rows, key, k) {
          var i :| 0 <= i < |rows| && key(rows[i]) == k;
          assert i > 0 && key(rows[1..][i - 1]) == k;
        }
        if Taken(rows[1..], key, k) {
          var i :| 0 <= i < |rows[1..]| && key(rows[1..][i]) == k;
          assert key(rows[i + 1]) == k;
        }
      }
      if r.Some? then
        FirstShifts(rows, key, k, r.value);
        r
      else
        r
  }

  /** A first match in the rows after a non-matching head is the first match in all the rows. */
  lemma FirstShifts<R>(rows: seq<R>, key: R -> string, k: string, x: R)
    requires |rows| > 0 && key(rows[0]) != k
    requires exists i :: (0 <= i < |rows[1..]| && rows[1..][i] == x && key(rows[1..][i]) == k
      && forall j :: 0 <= j < i ==> key(rows[1..][j]) != k)
    ensures exists i :: (0 <= i < |rows| && rows[i] == x && key(rows[i]) == k
      && forall j :: 0 <= j < i ==> key(rows[j]) != k)
  {
    var i :| 0 <= i < |rows[1..]| && rows[1..][i] == x && key(rows[1..][i]) == k
      && forall j :: 0 <= j < i ==> key(rows[1..][j]) != k;
    assert rows[i + 1] == x;
    forall j | 0 <= j < i + 1
      ensures key(rows[j]) != k
    {
      if j > 0 {
        assert rows[j] == rows[1..][j - 1];
      }
    }
  }


  // ---------------------------------------------------------------- lemmas

  /** A successful insert appends exactly the new row: stored rows are never altered. */
  lemma InsertAppends<R>(rows: seq<R>, row: R, keys: seq<R -> string>)
    requires Insert(rows, row, keys).Some?
    ensures rows <= Insert(rows, row, keys).value
    ensures Insert(rows, row, keys).value[|rows|..] == [row]
  {
  }

  /** A successful insert keeps every unique key unique. */
  lemma InsertKeepsUnique<R>(rows: seq<R>, row: R, keys: seq<R -> string>)
    requires AllUnique(rows, keys) && Insert(rows, row, keys).Some?
    ensures AllUnique(Insert(rows, row, keys).value, keys)
  {
    var next := rows + [row];
    forall j | 0 <= j < |keys|
      ensures Unique(next, keys[j])
    {
      forall a, b | 0 <= a < b < |next|
        ensures keys[j](next[a]) != keys[j](next[b])
      {
        if b == |rows| {
          assert next[a] == rows[a];
          ClashesAt(rows, row, keys, j);
        }
      }
    }
  }

  /** Insert-or-ignore keeps every unique key unique, and never alters a stored row. */
  lemma InsertOrIgnoreKeepsUnique<R>(rows: seq<R>, row: R, target: R -> string, keys: seq<R -> string>)
    requires AllUnique(rows, keys) && InsertOrIgnore(rows, row, target, keys).Some?
    ensures AllUnique(InsertOrIgnore(rows, row, target, keys).value, keys)
    ensures rows <= InsertOrIgnore(rows, row, target, keys).value
  {
    if !Taken(rows, target, target(row)) {
      InsertKeepsUnique(rows, row, keys);
    }
  }

  /** After a successful insert-or-ignore some row carries the target key of `row`. */
  lemma InsertOrIgnoreStores<R>(rows: seq<R>, row: R, target: R -> string, keys: seq<R -> string>)
    requires InsertOrIgnore(rows, row, target, keys).Some?
    ensures Taken(InsertOrIgnore(rows, row, target, keys).value, target, target(row))
  {
    if !Taken(rows, target, target(row)) {
      var next := rows + [row];
      assert target(next[|rows|]) == target(row);
    }
  }

  /** Running the same insert-or-ignore twice has the effect of running it once. */
  lemma InsertOrIgnoreIdempotent<R>(rows: seq<R>, row: R, target: R -> string, keys: seq<R -> string>)
    requires InsertOrIgnore(rows, row, target, keys).Some?
    ensures InsertOrIgnore(InsertOrIgnore(rows, row, target, keys).value, row, target, keys)
         == InsertOrIgnore(rows, row, target, keys)
  {
    InsertOrIgnoreStores(rows, row, target, keys);
  }

  /** Running the same plain insert twice fails the second time. */
  lemma InsertTwiceFails<R>(rows: seq<R>, row: R, keys: seq<R -> string>)
    requires |keys| > 0 && Insert(rows, row, keys).Some?
    ensures Insert(Insert(rows, row, keys).value, row, keys).None?
  {
    var next := rows + [row];
    assert keys[0](next[|rows|]) == keys[0](row);
    assert Taken(next, keys[0], keys[0](row));
  }

  /** Over a table whose key is unique, `Find` returns the one row with that key. */
  lemma {:induction false} FindUnique<R>(rows: seq<R>, key: R -> string, i: nat)
    requires Unique(rows, key) && i < |rows|
    ensures Find(rows, key, key(rows[i])) == Some(rows[i])
  {
    if i > 0 {
      assert key(rows[0]) != key(rows[i]);
      assert rows[1..][i - 1] == rows[i];
      assert Unique(rows[1..], key) by {
        forall a, b | 0 <= a < b < |rows[1..]|
          ensures key(rows[1..][a]) != key(rows[1..][b])
        {
          assert rows[1..][a] == rows[a + 1] && rows[1..][b] == rows[b + 1];
        }
      }
      FindUnique(rows[1..], key, i - 1);
    }
  }

  /** Appending rows does not change what `Find` returns for a key already present. */
  lemma {:induction false} FindAppend<R>(rows: seq<R>, more: seq<R>, key: R -> string, k: string)
    requires Taken(rows, key, k)
    ensures Find(rows + more, key, k) == Find(rows, key, k)
  {
    if key(rows[0]) != k {
      assert (rows + more)[1..] == rows[1..] + more;
      var i :| 0 <= i < |rows| && key(rows[i]) == k;
      assert i > 0 && key(rows[1..][i - 1]) == k;
      FindAppend(rows[1..], more, key, k);
    }
  }

  /** Every stored boost refers to a stored post by its id. */
  predicate BoostsResolve(rows: seq<PostRow>) {
    forall i :: 0 <= i < |rows| && rows[i].boostedPostId.Some? ==> Taken(rows, PostId, rows[i].boostedPostId.value)
  }

  lemma AppendResolves(rows: seq<PostRow>, row: PostRow)
    requires BoostsResolve(rows)
    requires row.boostedPostId.Some? ==> Taken(rows, PostId, row.boostedPostId.value)
    ensures BoostsResolve(rows + [row])
  {
    var more := rows + [row];
    forall i | 0 <= i < |more| && more[i].boostedPostId.Some?
      ensures Taken(more, PostId, more[i].boostedPostId.value)
    {
      var k := more[i].boostedPostId.value;
      assert Taken(rows, PostId, k);
      var j :| 0 <= j < |rows| && PostId(rows[j]) == k;
      assert more[j] == rows[j];
    }
  }

  /** The database handle the statements run against. */
  class Connection {
    var tables: Tables

    constructor (t: Tables)
      ensures tables == t
    {
      tables := t;
    }
  }
}
