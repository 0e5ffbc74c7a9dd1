/**
 * The slim user record the outbox and the server's inbox handlers work with
 * (`ferri-main/src/ap/user.rs`): a user with its actor, looked up by id, username or actor
 * id. A lookup that finds no row is the `fetch_one(..).unwrap()` panic, here `None`.
 */
module ApUser {
  import opened Wrappers
  import Db = DbTypes
  import opened Store
  import Get
  import Text

  datatype Actor = Actor(id: string, inbox: string, outbox: string)

  datatype User = User(id: string, username: string, actor: Actor, displayName: string)

  /** The user of the first row `pick` selects that joins an actor row. */
  function UserFrom(t: Tables, pick: UserRow -> bool): (r: Option<User>)
    ensures r.Some? ==> exists i :: 0 <= i < |t.user| && pick(t.user[i]) && t.user[i].id == r.value.id
    ensures r.Some? ==> Find(t.actor, ActorId, r.value.actor.id).Some?
    ensures r.None? <==> forall i :: 0 <= i < |t.user| && pick(t.user[i]) ==> !Taken(t.actor, ActorId, t.user[i].actorId)
  {
    match Get.UserRecord(t.user, t.actor, pick)
    case None => None
    case Some((u, a)) => Some(User(u.id, u.username, Actor(a.id, a.inbox, a.outbox), u.displayName))
  }

  function FromId(t: Tables, id: string): Option<User> {
    UserFrom(t, (u: UserRow) => u.id == id)
  }

  function FromUsername(t: Tables, username: string): Option<User> {
    UserFrom(t, (u: UserRow) => u.username == username)
  }

  function FromActorId(t: Tables, actorId: string): Option<User> {
    UserFrom(t, (u: UserRow) => u.actorId == actorId)
  }

  /** What each lookup finds carries the looked-up value. */
  lemma LookupsMatch(t: Tables, id: string, username: string, actorId: string)
    ensures FromId(t, id).Some? ==> FromId(t, id).value.id == id
    ensures FromUsername(t, username).Some? ==> FromUsername(t, username).value.username == username
    ensures FromActorId(t, actorId).Some? ==> FromActorId(t, actorId).value.actor.id == actorId
  {
    ghost var byName := (u: UserRow) => u.username == username;
    if FromUsername(t, username).Some? {
      var (u, a) := Get.UserRecord(t.user, t.actor, byName).value;
      assert u.username == username;
    }
    ghost var byActor := (u: UserRow) => u.actorId == actorId;
    if FromActorId(t, actorId).Some? {
      var (u, a) := Get.UserRecord(t.user, t.actor, byActor).value;
      assert a.id == u.actorId;
    }
  }

  /** A user whose actor row is stored is found by its actor id. */
  lemma FromActorIdFinds(t: Tables, i: nat)
    requires i < |t.user| && Taken(t.actor, ActorId, t.user[i].actorId)
    ensures FromActorId(t, t.user[i].actorId).Some?
  {
    ghost var pick := (u: UserRow) => u.actorId == t.user[i].actorId;
    assert pick(t.user[i]);
  }

  /** `User::uri`: the local profile URL, the users base followed by the user's id. */
  function Uri(u: User): (r: string)
    ensures Db.USERS_BASE <= r
    ensures Text.StripPrefix(r, Db.USERS_BASE) == Some(u.id)
  {
    var r := Db.USERS_BASE + u.id;
    assert r[|Db.USERS_BASE|..] == u.id;
    r
  }

  /** Users with distinct ids have distinct profile URLs. */
  lemma UriInjective(u: User, v: User)
    requires Uri(u) == Uri(v)
    ensures u.id == v.id
  {
  }
}
