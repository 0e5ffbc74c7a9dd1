/**
 * The OAuth authorization-code flow of the server (`ferri-server/src/endpoints/oauth.rs`),
 * after section 4.1 of RFC 6749: `authorize` checks the response type and splits the scope,
 * `accept` stores a fresh code both as an `auth` token and as the access token of a new
 * `oauth` row, and `new_token` exchanges the code for a fresh access token, rewriting the
 * `oauth` rows and deleting the code's `auth` row. Tokens come from `Oracle.Ids`; their
 * requested lengths are not modelled.
 */
module OAuth {
  import opened Wrappers
  import opened Store
  import Text
  import Oracle

  /** The user every authorization page is rendered for. */
  const LOCAL_USER_ID := "9b9d497b-2731-435f-a929-e609ca69dac9"
  /** Where `accept` sends the browser, the code appended. */
  const CLIENT_REDIRECT := "https://phanpy.social?code="
  const EXPIRES_IN := 3600

  // --------------------------------------------------------------- authorize

  /** The data `authorize` renders (`AuthorizeTemplate`); the HTML template is not modelled. */
  datatype AuthorizePage = AuthorizePage(
    clientId: string, scopes: seq<string>, scopeRaw: string, redirectUri: string, userId: string)

  /**
   * `authorize`: only the `code` response type is served; the scope is split on single
   * spaces, so that the pieces joined by spaces give the raw scope back.
   */
  function Authorize(clientId: string, scope: string, redirectUri: string, responseType: string)
    : (r: Result<AuthorizePage, string>)
    ensures r.Err? <==> responseType != "code"
    ensures r.Err? ==> r.error == "unknown response type " + responseType
    ensures r.Ok? ==>
      && r.value.clientId == clientId && r.value.redirectUri == redirectUri
      && r.value.scopeRaw == scope && r.value.userId == LOCAL_USER_ID
      && |r.value.scopes| >= 1 && Text.Join(r.value.scopes, ' ') == scope
      && forall k :: 0 <= k < |r.value.scopes| ==> ' ' !in r.value.scopes[k]
  {
    if responseType != "code" then Err("unknown response type " + responseType)
    else
      Text.JoinSplit(scope, ' ');
      Ok(AuthorizePage(clientId, Text.Split(scope, ' '), scope, redirectUri, LOCAL_USER_ID))
  }

  /** Scopes without spaces, joined by single spaces, come back one by one. */
  lemma AuthorizeSplitsScopes(scopes: seq<string>, clientId: string, redirectUri: string)
    requires |scopes| >= 1 && forall k :: 0 <= k < |scopes| ==> ' ' !in scopes[k]
    ensures Authorize(clientId, Text.Join(scopes, ' '), redirectUri, "code").value.scopes == scopes
  {
    Text.SplitJoin(scopes, ' ');
  }

  // ------------------------------------------------------------------ accept

  /** The page `accept` answers with: a script that sends the browser to the client with the code. */
  function RedirectPage(code: string): string {
    "\n       <script>window.location.href=\"" + CLIENT_REDIRECT + code + "\"</script>\n    "
  }

  /** What `accept` leaves: the tables, the tokens drawn, and the page (`None`: a failed `unwrap`). */
  datatype Accepted = Accepted(tables: Tables, next: nat, page: Option<string>)

  /**
   * `accept`: draw the code and store it as the user's `auth` token, then draw an id token and
   * store the `oauth` row whose access token is, for now, the code. Both are plain inserts.
   */
  function AcceptEffect(t: Tables, tokens: nat -> string, n: nat, userId: string, clientId: string,
                        scope: string): (r: Accepted)
    ensures r.next == n + 1 || r.next == n + 2
    ensures r.tables.(auth := t.auth, oauth := t.oauth) == t
  {
    var code := tokens(n);
    match Insert(t.auth, AuthRow(code, userId), AuthKeys())
    case None => Accepted(t, n + 1, None)
    case Some(auth) =>
      var t1 := t.(auth := auth);
      match Insert(t1.oauth, OAuthRow(tokens(n + 1), clientId, EXPIRES_IN, scope, code), OAuthKeys())
      case None => Accepted(t1, n + 2, None)
      case Some(oauth) => Accepted(t1.(oauth := oauth), n + 2, Some(RedirectPage(code)))
  }

  method Accept(conn: Connection, tokens: Oracle.Ids, id: string, clientId: string, scope: string)
    returns (page: Option<string>)
    modifies conn, tokens
    ensures var r := AcceptEffect(old(conn.tables), tokens.source, old(tokens.next), id, clientId, scope);
      conn.tables == r.tables && tokens.next == r.next && page == r.page
  {
    var userId := id;
    var code := tokens.Fresh();
    var auth := Insert(conn.tables.auth, AuthRow(code, userId), AuthKeys());
    if auth.None? {
      return None;
    }
    conn.tables := conn.tables.(auth := auth.value);
    var idToken := tokens.Fresh();
    var oauth := Insert(conn.tables.oauth, OAuthRow(idToken, clientId, EXPIRES_IN, scope, code), OAuthKeys());
    if oauth.None? {
      return None;
    }
    conn.tables := conn.tables.(oauth := oauth.value);
    return Some(RedirectPage(code));
  }

  /**
   * `accept` answers exactly when the code is a new token and the id token a new id: then
   * `auth` gains the code for the user and `oauth` the row for the client, valid for 3600
   * seconds, whose access token is the code. The store's keys stay unique either way.
   */
  lemma AcceptStoresCode(t: Tables, tokens: nat -> string, n: nat, userId: string, clientId: string, scope: string)
    ensures var r := AcceptEffect(t, tokens, n, userId, clientId, scope);
      && (r.page.Some? <==> !Taken(t.auth, AuthToken, tokens(n)) && !Taken(t.oauth, OAuthIdToken, tokens(n + 1)))
      && (r.page.Some? ==>
            && r.tables.auth == t.auth + [AuthRow(tokens(n), userId)]
            && r.tables.oauth == t.oauth + [OAuthRow(tokens(n + 1), clientId, 3600, scope, tokens(n))]
            && r.page == Some(RedirectPage(tokens(n))))
      && (r.page.None? ==> r.tables.oauth == t.oauth)
      && (Valid(t) ==> Valid(r.tables))
  {
    var code := tokens(n);
    var arow := AuthRow(code, userId);
    var orow := OAuthRow(tokens(n + 1), clientId, EXPIRES_IN, scope, code);
    OneKey(t.auth, arow, AuthToken);
    OneKey(t.oauth, orow, OAuthIdToken);
    if Valid(t) && Insert(t.auth, arow, AuthKeys()).Some? {
      InsertKeepsUnique(t.auth, arow, AuthKeys());
      if Insert(t.oauth, orow, OAuthKeys()).Some? {
        InsertKeepsUnique(t.oauth, orow, OAuthKeys());
      }
    }
  }

  // --------------------------------------------------------------- new_token

  /** The answer of `new_token`. */
  datatype Token = Token(accessToken: string, tokenType: string, expiresIn: int, scope: string, idToken: string)

  function OAuthAccess(r: OAuthRow): string { r.accessToken }

  /** `UPDATE oauth SET access_token = access WHERE access_token = code`. */
  function Rewrite(rows: seq<OAuthRow>, code: string, access: string): (r: seq<OAuthRow>)
    ensures |r| == |rows|
    ensures forall k :: 0 <= k < |r| ==>
      r[k] == if rows[k].accessToken == code then rows[k].(accessToken := access) else rows[k]
  {
    if |rows| == 0 then []
    else
      var head := if rows[0].accessToken == code then rows[0].(accessToken := access) else rows[0];
      [head] + Rewrite(rows[1..], code, access)
  }

  /** `DELETE FROM auth WHERE token = code`: the other rows, in order. */
  function Revoke(rows: seq<AuthRow>, code: string): (r: seq<AuthRow>)
    ensures |r| <= |rows|
    ensures forall x :: x in r <==> x in rows && x.token != code
  {
    if |rows| == 0 then []
    else (if rows[0].token == code then [] else [rows[0]]) + Revoke(rows[1..], code)
  }

  /** What `new_token` leaves: the tables, the tokens drawn, and the answer (`None`: a failed `unwrap`). */
  datatype Exchanged = Exchanged(tables: Tables, next: nat, token: Option<Token>)

  /**
   * `new_token`: the first `oauth` row whose access token is the code, with an `auth` row
   * whose token is the code, or a panic; then a fresh access token is stored for that
   * user, written over the code in every `oauth` row, and the code's `auth` row deleted.
   */
  function NewTokenEffect(t: Tables, tokens: nat -> string, n: nat, code: string): (r: Exchanged)
  {
    match (Find(t.oauth, OAuthAccess, code), Find(t.auth, AuthToken, code))
    case (Some(o), Some(a)) =>
      var access := tokens(n);
      (match Insert(t.auth, AuthRow(access, a.userId), AuthKeys())
       case None => Exchanged(t, n + 1, None)
       case Some(auth) =>
         var t1 := t.(auth := auth);
         var t2 := t1.(oauth := Rewrite(t1.oauth, code, access));
         var t3 := t2.(auth := Revoke(t2.auth, code));
         Exchanged(t3, n + 1, Some(Token(access, "Bearer", o.expiresIn, o.scope, o.idToken))))
    case _ => Exchanged(t, n, None)
  }

  method NewToken(conn: Connection, tokens: Oracle.Ids, code: string) returns (r: Option<Token>)
    modifies conn, tokens
    ensures var e := NewTokenEffect(old(conn.tables), tokens.source, old(tokens.next), code);
      conn.tables == e.tables && tokens.next == e.next && r == e.token
  {
    var oauth := Find(conn.tables.oauth, OAuthAccess, code);
    var auth := Find(conn.tables.auth, AuthToken, code);
    if oauth.None? || auth.None? {
      return None;
    }
    var accessToken := tokens.Fresh();
    var rows := Insert(conn.tables.auth, AuthRow(accessToken, auth.value.userId), AuthKeys());
    if rows.None? {
      return None;
    }
    conn.tables := conn.tables.(auth := rows.value);
    conn.tables := conn.tables.(oauth := Rewrite(conn.tables.oauth, code, accessToken));
    conn.tables := conn.tables.(auth := Revoke(conn.tables.auth, code));
    return Some(Token(accessToken, "Bearer", oauth.value.expiresIn, oauth.value.scope, oauth.value.idToken));
  }

  /** Deleting rows keeps a table's tokens unique. */
  lemma RevokeKeepsUnique(rows: seq<AuthRow>, code: string)
    requires AllUnique(rows, AuthKeys())
    ensures AllUnique(Revoke(rows, code), AuthKeys())
  {
    AuthKeysUnique(rows);
    RevokeUnique(rows, code);
    AuthKeysUnique(Revoke(rows, code));
  }

  /** `auth` has the token as its one key. */
  lemma AuthKeysUnique(rows: seq<AuthRow>)
    ensures AllUnique(rows, AuthKeys()) <==> Unique(rows, AuthToken)
  {
    var keys := AuthKeys();
    assert |keys| == 1 && keys[0] == AuthToken;
    if AllUnique(rows, keys) {
      assert Unique(rows, keys[0]);
    }
  }

  lemma {:induction false} RevokeUnique(rows: seq<AuthRow>, code: string)
    requires Unique(rows, AuthToken)
    ensures Unique(Revoke(rows, code), AuthToken)
  {
    if |rows| > 0 {
      var tail := rows[1..];
      assert Unique(tail, AuthToken) by {
        forall a, b | 0 <= a < b < |tail|
          ensures AuthToken(tail[a]) != AuthToken(tail[b])
        {
          assert tail[a] == rows[a + 1] && tail[b] == rows[b + 1];
        }
      }
      RevokeUnique(tail, code);
      var rest := Revoke(tail, code);
      if rows[0].token != code {
        forall y | y in rest
          ensures AuthToken(y) != AuthToken(rows[0])
        {
          var a :| 0 <= a < |tail| && tail[a] == y;
          assert rows[a + 1] == y;
        }
        UniqueCons(rows[0], rest);
        assert Revoke(rows, code) == [rows[0]] + rest;
      } else {
        assert Revoke(rows, code) == rest;
      }
    }
  }

  /** A row whose token no other row has, put in front of rows with unique tokens. */
  lemma UniqueCons(x: AuthRow, rest: seq<AuthRow>)
    requires Unique(rest, AuthToken) && forall y | y in rest :: AuthToken(y) != AuthToken(x)
    ensures Unique([x] + rest, AuthToken)
  {
    var r := [x] + rest;
    forall a, b | 0 <= a < b < |r|
      ensures AuthToken(r[a]) != AuthToken(r[b])
    {
      assert r[b] == rest[b - 1];
      if a > 0 {
        assert r[a] == rest[a - 1];
      } else {
        assert r[b] in rest;
      }
    }
  }

  /** Rewriting access tokens leaves every id token, the `oauth` key, where it was. */
  lemma RewriteKeepsUnique(rows: seq<OAuthRow>, code: string, access: string)
    requires AllUnique(rows, OAuthKeys())
    ensures AllUnique(Rewrite(rows, code, access), OAuthKeys())
  {
    var r := Rewrite(rows, code, access);
    assert forall k :: 0 <= k < |r| ==> r[k].idToken == rows[k].idToken;
    assert OAuthKeys()[0] == OAuthIdToken;
    assert Unique(rows, OAuthIdToken);
    assert Unique(r, OAuthKeys()[0]);
  }

  /**
   * The exchange answers exactly when some `oauth` row holds the code, some `auth` row has
   * it as token, and the fresh token is not yet a token. Then the answer is a `Bearer` token
   * carrying the first such `oauth` row's lifetime, scope and id token; `auth` holds the new
   * token for the code's user and no longer the code; no `oauth` row holds the code any more,
   * those that did now holding the new token; no other table changes; keys stay unique.
   */
  lemma NewTokenOutcome(t: Tables, tokens: nat -> string, n: nat, code: string)
    ensures var r := NewTokenEffect(t, tokens, n, code);
      && (r.token.Some? <==>
            Taken(t.oauth, OAuthAccess, code) && Taken(t.auth, AuthToken, code)
            && !Taken(t.auth, AuthToken, tokens(n)))
      && (r.token.Some? ==>
            var o := Find(t.oauth, OAuthAccess, code).value;
            var a := Find(t.auth, AuthToken, code).value;
            && r.token.value == Token(tokens(n), "Bearer", o.expiresIn, o.scope, o.idToken)
            && tokens(n) != code && a.token == code
            && AuthRow(tokens(n), a.userId) in r.tables.auth
            && !Taken(r.tables.auth, AuthToken, code)
            && !Taken(r.tables.oauth, OAuthAccess, code)
            && |r.tables.oauth| == |t.oauth|
            && (forall k :: 0 <= k < |t.oauth| && t.oauth[k].accessToken == code ==>
                  r.tables.oauth[k] == t.oauth[k].(accessToken := tokens(n)))
            && r.tables.(auth := t.auth, oauth := t.oauth) == t)
      && (r.token.None? ==> r.tables == t)
      && (Valid(t) ==> Valid(r.tables))
  {
    var fo := Find(t.oauth, OAuthAccess, code);
    var fa := Find(t.auth, AuthToken, code);
    if fo.Some? && fa.Some? {
      var access := tokens(n);
      var row := AuthRow(access, fa.value.userId);
      OneKey(t.auth, row, AuthToken);
      if Insert(t.auth, row, AuthKeys()).Some? {
        ExchangeWrites(t, code, access, fa.value.userId);
      }
    }
  }

  /** The tables after the new token is stored, written over the code, and the code deleted. */
  function Exchange(t: Tables, code: string, access: string, userId: string): Tables {
    t.(auth := Revoke(t.auth + [AuthRow(access, userId)], code), oauth := Rewrite(t.oauth, code, access))
  }

  lemma ExchangeWrites(t: Tables, code: string, access: string, userId: string)
    requires Taken(t.auth, AuthToken, code) && !Taken(t.auth, AuthToken, access)
    ensures var t3 := Exchange(t, code, access, userId);
      && access != code
      && AuthRow(access, userId) in t3.auth
      && !Taken(t3.auth, AuthToken, code)
      && !Taken(t3.oauth, OAuthAccess, code)
      && |t3.oauth| == |t.oauth|
      && (forall k :: 0 <= k < |t.oauth| && t.oauth[k].accessToken == code ==>
            t3.oauth[k] == t.oauth[k].(accessToken := access))
      && t3.(auth := t.auth, oauth := t.oauth) == t
      && (Valid(t) ==> Valid(t3))
  {
    var row := AuthRow(access, userId);
    var auth := t.auth + [row];
    var t3 := Exchange(t, code, access, userId);
    assert access != code;
    assert row in Revoke(auth, code);
    forall k | 0 <= k < |t3.auth|
      ensures t3.auth[k].token != code
    {
      assert t3.auth[k] in Revoke(auth, code);
    }
    if Valid(t) {
      OneKey(t.auth, row, AuthToken);
      InsertKeepsUnique(t.auth, row, AuthKeys());
      RevokeKeepsUnique(auth, code);
      RewriteKeepsUnique(t.oauth, code, access);
    }
  }

  /**
   * The flow end to end: a code `accept` just stored, and named by no older `oauth` row,
   * exchanges for a `Bearer` token with the accepted scope, a 3600-second lifetime and the id
   * token `accept` drew, stored in `auth` for the accepting user.
   */
  lemma AcceptThenExchange(t: Tables, tokens: nat -> string, n: nat, userId: string, clientId: string, scope: string)
    requires AcceptEffect(t, tokens, n, userId, clientId, scope).page.Some?
    requires !Taken(t.oauth, OAuthAccess, tokens(n))
    requires tokens(n + 2) != tokens(n) && !Taken(t.auth, AuthToken, tokens(n + 2))
    ensures var acc := AcceptEffect(t, tokens, n, userId, clientId, scope);
      var ex := NewTokenEffect(acc.tables, tokens, acc.next, tokens(n));
      && ex.token == Some(Token(tokens(n + 2), "Bearer", 3600, scope, tokens(n + 1)))
      && AuthRow(tokens(n + 2), userId) in ex.tables.auth
  {
    AcceptStoresCode(t, tokens, n, userId, clientId, scope);
    var acc := AcceptEffect(t, tokens, n, userId, clientId, scope);
    var code := tokens(n);
    var orow := OAuthRow(tokens(n + 1), clientId, EXPIRES_IN, scope, code);
    var fo := Find(acc.tables.oauth, OAuthAccess, code);
    assert OAuthAccess(acc.tables.oauth[|t.oauth|]) == code;
    assert fo.value in t.oauth + [orow];
    assert fo.value !in t.oauth;
    var fa := Find(acc.tables.auth, AuthToken, code);
    assert AuthToken(acc.tables.auth[|t.auth|]) == code;
    assert fa.value !in t.auth;
    forall k | 0 <= k < |acc.tables.auth|
      ensures acc.tables.auth[k].token != tokens(n + 2)
    {
      if k < |t.auth| {
        assert acc.tables.auth[k] == t.auth[k];
      }
    }
    NewTokenOutcome(acc.tables, tokens, acc.next, code);
  }
}
