/**
 * The request guard that turns an `Authorization` header into the signed-in user
 * (`AuthenticatedUser::from_request` in `ferri-server/src/lib.rs`), after section 2.1 of
 * RFC 6750: the token is the header with a leading `Bearer` cut off and the rest trimmed,
 * looked up in `auth` joined with `user`, and the user then read with `user_by_id`.
 */
module Auth {
  import opened Wrappers
  import opened Store
  import Text
  import Db = DbTypes
  import Get
  import OAuth

  datatype AuthenticatedUser = AuthenticatedUser(
    id: string, actorId: string, user: Db.User, username: string, token: string)

  /**
   * What the guard decides: the user, `Forward(Unauthorized)`, or a panic inside
   * `user_by_id` (a stored time that does not parse).
   */
  datatype Outcome = Success(value: AuthenticatedUser) | Unauthorized | Panic

  /** The token of an `Authorization` value: after a leading `Bearer`, trimmed; otherwise the value as it is. */
  function BearerToken(header: string): (r: string)
    ensures "Bearer" <= header ==> |r| <= |header| - 6
    ensures !("Bearer" <= header) ==> r == header
  {
    match Text.StripPrefix(header, "Bearer")
    case Some(rest) => Text.Trim(rest)
    case None => header
  }

  /**
   * The forms the guard accepts for a token without whitespace at either end: after
   * `Bearer ` or straight after `Bearer`; a value without the prefix, such as one spelled
   * `bearer`, is taken whole and untrimmed.
   */
  lemma BearerForms(token: string)
    requires |token| > 0 ==> !Text.IsWhitespace(token[0]) && !Text.IsWhitespace(token[|token| - 1])
    ensures BearerToken("Bearer " + token) == token
    ensures BearerToken("Bearer" + token) == token
    ensures BearerToken(" Bearer " + token) == " Bearer " + token
  {
    assert ("Bearer " + token)[6..] == " " + token;
    assert ("Bearer" + token)[6..] == token;
    Text.TrimSpaceFirst(token);
    Text.TrimTrimmed(token);
    assert !("Bearer" <= " Bearer " + token) by {
      assert (" Bearer " + token)[0] == ' ';
    }
  }

  /**
   * `from_request`: no header, a token no `auth` row holds, an `auth` row whose user is
   * missing, or a failed `user_by_id` all forward as unauthorized; otherwise the user, with
   * the display name as username.
   */
  function FromRequest(t: Tables, header: Option<string>): (r: Outcome)
  {
    match header
    case None => Unauthorized
    case Some(h) =>
      var token := BearerToken(h);
      match Find(t.auth, AuthToken, token)
      case None => Unauthorized
      case Some(a) =>
        match Find(t.user, UserId, a.userId)
        case None => Unauthorized
        case Some(u) =>
          match Get.UserById(t, u.id)
          case Got(user) => Success(AuthenticatedUser(u.id, u.actorId, user, u.displayName, a.token))
          case Failed(_) => Unauthorized
          case Panic => Panic
  }

  /**
   * The guard's outcomes: unauthorized without a header or without a matching `auth` row;
   * on success the user is the one the token's `auth` row names, with its actor, its display
   * name as username, and the token the guard extracted.
   */
  lemma FromRequestOutcomes(t: Tables, header: Option<string>)
    ensures header.None? ==> FromRequest(t, header) == Unauthorized
    ensures header.Some? && !Taken(t.auth, AuthToken, BearerToken(header.value)) ==> FromRequest(t, header) == Unauthorized
    ensures FromRequest(t, header).Success? ==>
      var s := FromRequest(t, header).value;
      && header.Some? && s.token == BearerToken(header.value)
      && AuthRow(s.token, s.id) in t.auth
      && s.user.id == s.id && s.user.keyId == Db.KeyIdFor(s.id)
      && exists i :: 0 <= i < |t.user| && t.user[i].id == s.id && t.user[i].actorId == s.actorId
                     && t.user[i].displayName == s.username
  {
    if FromRequest(t, header).Success? {
      var a := Find(t.auth, AuthToken, BearerToken(header.value)).value;
      var u := Find(t.user, UserId, a.userId).value;
      assert a == AuthRow(a.token, a.userId);
      Get.UsersCarryKeyId(t, u.id, "", "");
      var i :| 0 <= i < |t.user| && t.user[i] == u;
    }
  }

  /** A stored token, sent as `Bearer <token>`, signs in the user its `auth` row names whenever `user_by_id` can read that user. */
  lemma StoredTokenSignsIn(t: Tables, token: string, userId: string)
    requires AllUnique(t.auth, AuthKeys()) && AuthRow(token, userId) in t.auth
    requires |token| > 0 ==> !Text.IsWhitespace(token[0]) && !Text.IsWhitespace(token[|token| - 1])
    requires Get.UserById(t, userId).Got?
    ensures FromRequest(t, Some("Bearer " + token)).Success?
    ensures FromRequest(t, Some("Bearer " + token)).value.id == userId
  {
    BearerForms(token);
    var i :| 0 <= i < |t.auth| && t.auth[i] == AuthRow(token, userId);
    assert AuthKeys()[0] == AuthToken;
    assert Unique(t.auth, AuthToken);
    FindUnique(t.auth, AuthToken, i);
    var got := Get.UserById(t, userId).value;
    var j :| 0 <= j < |t.user| && t.user[j].id == userId && got.id == t.user[j].id;
    assert UserId(t.user[j]) == userId;
    var u := Find(t.user, UserId, userId).value;
    assert FromRequest(t, Some("Bearer " + token))
        == Success(AuthenticatedUser(u.id, u.actorId, got, u.displayName, token));
  }

  /**
   * A token `new_token` just issued signs its user in: sent as `Bearer <token>`, it finds
   * the `auth` row the exchange stored, and the guard succeeds for that user whenever
   * `user_by_id` can read it.
   */
  lemma ExchangedTokenSignsIn(t: Tables, tokens: nat -> string, n: nat, code: string)
    requires Valid(t) && OAuth.NewTokenEffect(t, tokens, n, code).token.Some?
    requires var access := tokens(n);
      |access| > 0 ==> !Text.IsWhitespace(access[0]) && !Text.IsWhitespace(access[|access| - 1])
    requires Get.UserById(OAuth.NewTokenEffect(t, tokens, n, code).tables,
                          Find(t.auth, AuthToken, code).value.userId).Got?
    ensures var e := OAuth.NewTokenEffect(t, tokens, n, code);
      && FromRequest(e.tables, Some("Bearer " + tokens(n))).Success?
      && FromRequest(e.tables, Some("Bearer " + tokens(n))).value.id == Find(t.auth, AuthToken, code).value.userId
  {
    OAuth.NewTokenOutcome(t, tokens, n, code);
    var e := OAuth.NewTokenEffect(t, tokens, n, code);
    StoredTokenSignsIn(e.tables, tokens(n), Find(t.auth, AuthToken, code).value.userId);
  }
}
