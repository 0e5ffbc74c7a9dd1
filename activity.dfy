/**
 * Outgoing activities and the outbox that posts them (`ferri-main/src/ap/activity.rs`):
 * the activity record, its row in the `activity` table, and the envelope `Outbox::post`
 * signs and sends to the target's inbox.
 */
module Activity {
  import opened Wrappers
  import Time
  import Http
  import opened Store
  import ApUser

  const AS_CONTEXT := "https://www.w3.org/ns/activitystreams"

  datatype ActivityType = Follow | Accept | Create | Unknown

  /** `to_raw`: the type's name; an activity of unknown type is stored as "FIXME". */
  function ToRaw(t: ActivityType): (r: string)
    ensures r == "FIXME" <==> t == Unknown
    ensures t != Unknown ==> r in {"Follow", "Accept", "Create"}
  {
    match t
    case Follow => "Follow"
    case Accept => "Accept"
    case Create => "Create"
    case Unknown => "FIXME"
  }

  /** Distinct types are stored under distinct names. */
  lemma ToRawInjective(a: ActivityType, b: ActivityType)
    requires ToRaw(a) == ToRaw(b)
    ensures a == b
  {
  }

  datatype Activity<T> = Activity(
    id: string, ty: ActivityType, payload: T, published: Time.Instant,
    to: seq<string>, cc: seq<string>)

  /** `Activity::default`, given the object's default and the clock's reading. */
  function Default<T>(obj: T, now: Time.Instant): (r: Activity<T>)
    ensures r.ty == Unknown && r.id == "" && r.to == [] && r.cc == []
    ensures r.payload == obj && r.published == now
  {
    Activity("", Unknown, obj, now, [], [])
  }

  datatype OutgoingActivity<T> = OutgoingActivity(signedBy: string, req: Activity<T>, to: ApUser.Actor)

  /** The row `save` writes: the activity id, the type's name and the target actor. */
  function SaveRow<T>(a: OutgoingActivity<T>): ActivityRow {
    ActivityRow(a.req.id, ToRaw(a.req.ty), a.to.id)
  }

  /**
   * `OutgoingActivity::save`: a plain insert, so an id already stored makes it panic
   * (`false`), leaving the table as it was.
   */
  method Save<T>(conn: Connection, a: OutgoingActivity<T>) returns (ok: bool)
    modifies conn
    ensures ok <==> !Taken(old(conn.tables.activity), ActivityId, a.req.id)
    ensures ok ==> conn.tables == old(conn.tables).(activity := old(conn.tables.activity) + [SaveRow(a)])
    ensures !ok ==> conn.tables == old(conn.tables)
  {
    OneKey(conn.tables.activity, SaveRow(a), ActivityId);
    var rows := Insert(conn.tables.activity, SaveRow(a), ActivityKeys());
    if rows.None? {
      return false;
    }
    conn.tables := conn.tables.(activity := rows.value);
    return true;
  }

  /** A saved default activity is stored under the placeholder type. */
  lemma SaveRowOfDefault<T>(signedBy: string, obj: T, now: Time.Instant, to: ApUser.Actor)
    ensures SaveRow(OutgoingActivity(signedBy, Default(obj, now), to)) == ActivityRow("", "FIXME", to.id)
  {
  }

  /** `RawActivity`: the envelope on the wire. */
  datatype RawActivity<T> = RawActivity(
    context: string, id: string, ty: string, actor: string, payload: T, published: string)

  /** The envelope `post` builds: the outbox owner is the actor, the time is RFC 3339. */
  function RawOf<T>(owner: ApUser.User, a: OutgoingActivity<T>): (r: RawActivity<T>)
    ensures r.context == AS_CONTEXT && r.actor == owner.actor.id
    ensures r.id == a.req.id && r.ty == ToRaw(a.req.ty) && r.payload == a.req.payload
  {
    RawActivity(AS_CONTEXT, a.req.id, ToRaw(a.req.ty), owner.actor.id, a.req.payload,
                Time.ToRfc3339(a.req.published))
  }

  /** The envelope's `published` reads back as the activity's own time. */
  lemma RawOfPublished<T>(owner: ApUser.User, a: OutgoingActivity<T>)
    requires Time.FourDigitYear(a.req.published)
    ensures Time.ParseRfc3339(RawOf(owner, a).published) == Some(a.req.published)
  {
    Time.ParseRfc3339Of(a.req.published);
  }

  /**
   * `Outbox::post`: the envelope, serialised by `encode`, is posted to the target's inbox,
   * with the body set before signing so its digest covers the envelope. `None` is the panic
   * of an inbox that is not a URL with a host; `answered` is `false` where the unwrapped
   * `send()` or `text()` panics, which `answers` tells of each request.
   */
  method Post<T>(client: Http.HttpClient, p: Http.Primitives, answers: Http.Request -> bool,
                 encode: RawActivity<T> -> string, owner: ApUser.User, a: OutgoingActivity<T>,
                 now: Time.Instant)
    returns (r: Option<Http.Request>, answered: bool)
    modifies client
    ensures r.None? <==> Http.IntoUrl(a.to.inbox).None?
    ensures answered <==> r.Some? && answers(r.value)
    ensures r.None? ==> client.sent == old(client.sent)
    ensures r.Some? ==> client.sent == old(client.sent) + [r.value]
    ensures client.sent == old(client.sent) + Http.Deliver(p, a.signedBy, a.to.inbox, encode(RawOf(owner, a)), now)
    ensures r.Some? ==>
      && r.value.verb == Http.Post && r.value.url == Http.IntoUrl(a.to.inbox).value
      && r.value.payload == Some(encode(RawOf(owner, a)))
      && Http.DigestMatches(p, r.value)
      && Http.Lookup(r.value.headers, "Signature").Some?
  {
    var raw := RawOf(owner, a);
    r, answered := Http.PostActivity(client, p, answers, a.signedBy, a.to.inbox, encode(raw), now);
    if r.Some? {
      ghost var d := Http.Deliver(p, a.signedBy, a.to.inbox, encode(raw), now);
      assert d[0] == (old(client.sent) + d)[|old(client.sent)|] == r.value;
      Http.DeliverSigned(p, a.signedBy, a.to.inbox, encode(raw), now);
    }
  }
}
