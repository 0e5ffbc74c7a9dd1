/**
 * A post written by a local user (`ferri-main/src/ap/post.rs`): built from its parts, given
 * recipients one at a time, turned into its ActivityStreams form and saved.
 */
module ApPost {
  import opened Wrappers
  import Text
  import Time
  import Db = DbTypes
  import opened Store
  import ApUser

  const AS_CONTEXT := "https://www.w3.org/ns/activitystreams"
  const POST_TYPE := "Post"

  /** The URI of post `postId` by local user `userId`. */
  function UriOf(userId: string, postId: string): (r: string)
    ensures Db.USERS_BASE <= r
  {
    Db.USERS_BASE + userId + "/posts/" + postId
  }

  /** The URI names its author and the post: both come back out of it. */
  lemma UriOfParts(userId: string, postId: string)
    requires '/' !in userId
    ensures
      var rest := Text.StripPrefix(UriOf(userId, postId), Db.USERS_BASE);
      rest.Some? && Text.SplitOnce(rest.value, '/') == Some((userId, "posts/" + postId))
  {
    var u := UriOf(userId, postId);
    var tail := userId + ['/'] + "posts/" + postId;
    assert u == Db.USERS_BASE + tail;
    assert Db.USERS_BASE <= u;
    assert u[|Db.USERS_BASE|..] == tail;
    assert Text.StripPrefix(u, Db.USERS_BASE) == Some(tail);
    assert tail == userId + ['/'] + ("posts/" + postId);
    Text.SplitOnceAt(userId, "posts/" + postId, '/');
  }

  /** Posts by authors whose ids hold no "/" have the same URI only when author and post agree. */
  lemma UriOfInjective(u1: string, p1: string, u2: string, p2: string)
    requires '/' !in u1 && '/' !in u2
    requires UriOf(u1, p1) == UriOf(u2, p2)
    ensures u1 == u2 && p1 == p2
  {
    UriOfParts(u1, p1);
    UriOfParts(u2, p2);
    assert "posts/" + p1 == "posts/" + p2;
    assert p1 == ("posts/" + p1)[6..];
    assert p2 == ("posts/" + p2)[6..];
  }

  /** `APPost`: the ActivityStreams form of a post. */
  datatype ApPost = ApPost(
    context: string, id: string, ty: string, ts: string, content: string,
    to: seq<string>, cc: seq<string>)

  class Post {
    var id: string
    var from: ApUser.User
    var ts: Time.Instant
    var content: string
    var to: seq<string>
    var cc: seq<string>

    /** `from_parts`: no recipients yet; `now` is the clock's reading. */
    constructor FromParts(id: string, content: string, from: ApUser.User, now: Time.Instant)
      ensures this.id == id && this.content == content && this.from == from && ts == now
      ensures to == [] && cc == []
    {
      this.id := id;
      this.content := content;
      this.from := from;
      ts := now;
      to := [];
      cc := [];
    }

    function Uri(): (r: string)
      reads this
      ensures Db.USERS_BASE <= r
    {
      UriOf(from.id, id)
    }

    /** `to`: one more primary recipient, at the end. */
    method To(recipient: string)
      modifies this
      ensures to == old(to) + [recipient] && cc == old(cc)
      ensures id == old(id) && from == old(from) && ts == old(ts) && content == old(content)
    {
      to := to + [recipient];
    }

    /** `cc`: one more secondary recipient, at the end. */
    method Cc(recipient: string)
      modifies this
      ensures cc == old(cc) + [recipient] && to == old(to)
      ensures id == old(id) && from == old(from) && ts == old(ts) && content == old(content)
    {
      cc := cc + [recipient];
    }

    /** `to_ap`: the URI as id, type "Post", the time as RFC 3339, the rest moved over. */
    function ToAp(): (r: ApPost)
      reads this
      ensures r.context == AS_CONTEXT && r.id == Uri() && r.ty == POST_TYPE
      ensures r.content == content && r.to == to && r.cc == cc
      ensures Time.FourDigitYear(ts) ==> Time.ParseRfc3339(r.ts) == Some(ts)
    {
      if Time.FourDigitYear(ts) then
        Time.ParseRfc3339Of(ts);
        ApPost(AS_CONTEXT, Uri(), POST_TYPE, Time.ToRfc3339(ts), content, to, cc)
      else
        ApPost(AS_CONTEXT, Uri(), POST_TYPE, Time.ToRfc3339(ts), content, to, cc)
    }

    function Row(): PostRow
      reads this
    {
      PostRow(id, Uri(), from.id, content, Time.ToRfc3339(ts), None)
    }

    /**
     * `save`: a plain insert of id, URI, author, content and time, boosting nothing; a clash
     * on the id or the URI is the `unwrap` panic (`false`), leaving the table as it was.
     */
    method Save(conn: Connection) returns (ok: bool)
      modifies conn
      ensures ok <==> !Taken(old(conn.tables.post), PostId, id) && !Taken(old(conn.tables.post), PostUri, Uri())
      ensures ok ==> conn.tables == old(conn.tables).(post := old(conn.tables.post) + [Row()])
      ensures !ok ==> conn.tables == old(conn.tables)
    {
      var row := Row();
      TwoKeys(conn.tables.post, row, PostId, PostUri);
      var rows := Insert(conn.tables.post, row, PostKeys());
      if rows.None? {
        return false;
      }
      conn.tables := conn.tables.(post := rows.value);
      return true;
    }
  }
}
