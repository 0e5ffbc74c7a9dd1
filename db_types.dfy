/**
 * The records the store hands out (`ferri-main/src/types/db.rs`), the key-id format every
 * user mapping uses, and `DbError` (`ferri-main/src/types/mod.rs`).
 */
module DbTypes {
  import opened Wrappers
  import Text
  import Time

  const USERS_BASE := "https://ferri.amy.mov/users/"
  /** The base of the ids given to follows, accepts and other outgoing activities. */
  const ACTIVITIES_BASE := "https://ferri.amy.mov/activities/"

  /** Errors carry a message in the source; only the kind is kept here. */
  datatype DbError = CreationError | FetchError

  datatype Actor = Actor(id: string, inbox: string, outbox: string)

  datatype Follow = Follow(id: string, follower: string, followed: string)

  datatype User = User(
    id: string, actor: Actor, username: string, displayName: string,
    acct: string, remote: bool, url: string, createdAt: Time.Instant,
    iconUrl: string, lastPostAt: Option<Time.Instant>, keyId: string)

  datatype Attachment = Attachment(
    id: string, postId: string, url: string, mediaType: Option<string>,
    sensitive: bool, alt: Option<string>)

  datatype Post = Post(
    id: string, uri: string, user: User, content: string, createdAt: Time.Instant,
    boostedPost: Option<Post>, attachments: seq<Attachment>)

  /** The key id of a local user: its profile URL with the `#main-key` fragment. */
  function KeyIdFor(userId: string): (r: string)
    ensures USERS_BASE <= r
  {
    USERS_BASE + userId + "#main-key"
  }

  /** The user id is recovered from a key id by dropping the base and the fragment. */
  lemma KeyIdForRecovers(userId: string)
    ensures Text.StripPrefix(KeyIdFor(userId), USERS_BASE) == Some(userId + "#main-key")
  {
    var k := KeyIdFor(userId);
    assert k == USERS_BASE + (userId + "#main-key");
    assert USERS_BASE <= k;
    assert k[|USERS_BASE|..] == userId + "#main-key";
  }

  /** Distinct users have distinct key ids. */
  lemma KeyIdForInjective(a: string, b: string)
    requires KeyIdFor(a) == KeyIdFor(b)
    ensures a == b
  {
    var n := |USERS_BASE|;
    assert |a| == |b|;
    forall i | 0 <= i < |a|
      ensures a[i] == b[i]
    {
      assert KeyIdFor(a)[n + i] == a[i];
      assert KeyIdFor(b)[n + i] == b[i];
    }
  }
}
